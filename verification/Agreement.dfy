/** When the dust settles, event rows agree with their jobs; and when they may not. Runs without faults. */
module Agreement {
  import opened Types
  import opened Sql
  import opened Handler
  import opened Machine
  import opened Structure
  import opened Tokens
  import Collector
  import Coverage
  import Ownership
  import Truth

  // ---------- one event, as a rollup sees it ----------

  ghost predicate SameJobSets(db: Db, db': Db, e: nat) {
    && JobsIn(db', e, JobVerified) == JobsIn(db, e, JobVerified)
    && JobsIn(db', e, JobFailed) == JobsIn(db, e, JobFailed)
    && PendingJobs(db', e) == PendingJobs(db, e) && JobsOf(db', e) == JobsOf(db, e)
  }

  ghost predicate SameEvent(db: Db, db': Db, e: nat) {
    SameJobSets(db, db', e) && e in db.events && e in db'.events && db'.events[e] == db.events[e]
  }

  ghost predicate CountersAgree(db: Db, e: nat)
    requires e in db.events
  {
    && db.events[e].verified == |JobsIn(db, e, JobVerified)|
    && db.events[e].failed == |JobsIn(db, e, JobFailed)|
    && db.events[e].total == |JobsOf(db, e)|
  }

  /** The status RollupEvent would write now. */
  function StatusNow(db: Db, e: nat): EventStatus {
    RollupStatus(|JobsIn(db, e, JobVerified)|, |JobsIn(db, e, JobFailed)|, |JobsOf(db, e)|, |PendingJobs(db, e)|)
  }

  /** Counters equal those recomputed from the jobs, and so does the status, unless its last write came from
      a RerunFailed that reset no job: then it is RUNNING. */
  ghost predicate RowAgrees(db: Db, emptied: set<nat>, e: nat)
    requires e in db.events
  {
    CountersAgree(db, e)
    && (db.events[e].status == StatusNow(db, e) || (e in emptied && db.events[e].status == EventRunning))
  }

  ghost predicate Dirty(cons: seq<Consumer>, e: nat) {
    exists i | 0 <= i < |cons| :: cons[i].Busy? && cons[i].pc.RollingUp() && cons[i].pc.ctx.ev == e
  }

  ghost predicate EventAgrees(db: Db, emptied: set<nat>, cons: seq<Consumer>, e: nat)
    requires e in db.events
  {
    PendingJobs(db, e) != {} || Dirty(cons, e) || RowAgrees(db, emptied, e)
  }

  /** What a torn rollup has read is still the truth, or some job of the event is pending again. */
  ghost predicate ReadFresh(db: Db, c: Consumer) {
    c.Busy? && (c.pc.CountPending? || c.pc.Roll?) ==>
      var e := c.pc.ctx.ev;
      PendingJobs(db, e) != {} ||
      (c.pc.verified == |JobsIn(db, e, JobVerified)| && c.pc.failed == |JobsIn(db, e, JobFailed)|
       && c.pc.total == |JobsOf(db, e)| && (c.pc.Roll? ==> c.pc.pending == 0))
  }

  ghost predicate Agree(s: State) {
    && (forall e | e in s.w.db.events :: EventAgrees(s.w.db, s.h.emptied, s.cons, e))
    && (forall i | 0 <= i < |s.cons| :: ReadFresh(s.w.db, s.cons[i]))
  }

  /** The rollup is one step, or there is one consumer; a torn rollup only in a torn setup. */
  ghost predicate Serial(su: Setup, s: State) {
    && (su.torn ==> |s.cons| <= 1)
    && (!su.torn ==> forall i | 0 <= i < |s.cons| && s.cons[i].Busy? ::
          !s.cons[i].pc.CountPending? && !s.cons[i].pc.Roll?)
  }

  // ---------- handler steps ----------

  lemma ChangedJob(db: Db, jobs': map<nat, Job>, job: nat, row: Job, e: nat)
    requires job in db.jobs && row.event == db.jobs[job].event && jobs' == db.jobs[job := row]
    requires e != row.event
    ensures SameJobSets(db, db.(jobs := jobs'), e)
  {
  }

  lemma SameJobsTable(db: Db, db': Db, e: nat)
    requires db'.jobs == db.jobs
    ensures SameJobSets(db, db', e)
  {
  }

  lemma AgreesFramed(db: Db, db': Db, emptied: set<nat>, emptied': set<nat>, cons: seq<Consumer>,
                     cons': seq<Consumer>, e: nat)
    requires SameEvent(db, db', e) && EventAgrees(db, emptied, cons, e)
    requires e in emptied ==> e in emptied'
    requires Dirty(cons, e) ==> Dirty(cons', e)
    ensures EventAgrees(db', emptied', cons', e)
  {
    hide Dirty;
  }

  lemma PcAfter(w: World, job: nat, pc: Pc, io: Io, valid: Collector.Validator)
    requires Fits(pc, io)
    ensures var pc' := Step(w, job, pc, io, valid).1;
      && (pc.Report? && ReplyOf(io).Confirmed? ==> pc' == Count(pc.ctx))
      && (pc.RollingUp() && !WritesStatus(pc, io) && ReplyOf(io).Confirmed? ==> pc'.RollingUp() && pc'.ctx == pc.ctx)
      && (pc.CountPending? && ReplyOf(io).Confirmed? ==>
            pc' == Roll(pc.ctx, pc.verified, pc.failed, pc.total, |PendingJobs(w.db, pc.ctx.ev)|))
      && (pc.Count? && !io.AtOnce? && ReplyOf(io).Confirmed? ==>
            pc' == CountPending(pc.ctx, |JobsIn(w.db, pc.ctx.ev, JobVerified)|, |JobsIn(w.db, pc.ctx.ev, JobFailed)|,
                                |JobsOf(w.db, pc.ctx.ev)|))
      && (pc'.Roll? ==> pc.CountPending?) && (pc'.CountPending? ==> pc.Count? && !io.AtOnce?)
  {
    hide DoConnect, DoExecute, JobsIn, JobsOf, PendingJobs, WriteRollup, WriteEventStatus, RollupAtOnce, RollupStatus;
    hide MarkJobRunning, WriteJobResult;
  }

  lemma WrittenRow(db: Db, ev: nat, v: nat, f: nat, t: nat, p: nat, emptied: set<nat>)
    requires ev in db.events
    requires PendingJobs(db, ev) != {} ||
             (v == |JobsIn(db, ev, JobVerified)| && f == |JobsIn(db, ev, JobFailed)| && t == |JobsOf(db, ev)| && p == 0)
    ensures var db' := WriteRollup(db, ev, RollupStatus(v, f, t, p), v, f, t);
      PendingJobs(db', ev) != {} || RowAgrees(db', emptied, ev)
  {
    var db' := WriteRollup(db, ev, RollupStatus(v, f, t, p), v, f, t);
    SameJobsTable(db, db', ev);
  }

  lemma AtOnceRow(db: Db, ev: nat, emptied: set<nat>)
    requires ev in db.events
    ensures RowAgrees(RollupAtOnce(db, ev), emptied, ev)
  {
    SameJobsTable(db, RollupAtOnce(db, ev), ev);
  }

  /** A step of consumer `i` leaves every other dirty consumer where it is. */
  lemma DirtyElsewhere(cons: seq<Consumer>, cons': seq<Consumer>, i: nat, e: nat)
    requires i < |cons| && |cons'| == |cons| && cons' == cons[i := cons'[i]]
    requires cons[i].Busy? && cons[i].pc.RollingUp() && cons[i].pc.ctx.ev == e ==>
               cons'[i].Busy? && cons'[i].pc.RollingUp() && cons'[i].pc.ctx.ev == e
    ensures Dirty(cons, e) ==> Dirty(cons', e)
  {
    if Dirty(cons, e) {
      var k :| 0 <= k < |cons| && cons[k].Busy? && cons[k].pc.RollingUp() && cons[k].pc.ctx.ev == e;
      assert cons'[k].Busy? && cons'[k].pc.RollingUp() && cons'[k].pc.ctx.ev == e;
    }
  }

  /** The event of a held token has a pending job. */
  lemma HeldIsPending(s: State, i: nat, tok: map<nat, Loc>)
    requires Placed(s, tok) && i < |s.cons| && s.cons[i].Busy? && s.cons[i].pc.Early()
    ensures s.cons[i].d.body.job in s.w.db.jobs && s.w.db.jobs[s.cons[i].d.body.job].status.Pending()
    ensures s.cons[i].d.body.job in PendingJobs(s.w.db, s.w.db.jobs[s.cons[i].d.body.job].event)
  {
    assert At(s, InCons(i)) == Some(s.cons[i].d.body.job);
  }

  /** The consumer's own event after its step. */
  lemma OwnEvent(su: Setup, s: State, i: nat, io: Io, tok: map<nat, Loc>)
    requires i < |s.cons| && s.cons[i].Busy? && Fits(s.cons[i].pc, io) && ReplyOf(io).Confirmed?
    requires Placed(s, tok) && WellFormed(s.w.db) && ConsumerOk(s.w.db, s.cons[i])
    requires ReadFresh(s.w.db, s.cons[i])
    requires s.cons[i].pc.MarkJob? || s.cons[i].pc.MarkEvent? || s.cons[i].pc.Report? || s.cons[i].pc.RollingUp()
    ensures var s' := DoWork(su, s, i, io);
      s.cons[i].pc.ctx.ev in s'.w.db.events && EventAgrees(s'.w.db, s'.h.emptied, s'.cons, s.cons[i].pc.ctx.ev)
  {
    hide DoWork, Step, WellFormed, Placed, RowAgrees, JobsOf, JobsIn, WriteRollup, WriteEventStatus, RollupAtOnce;
    hide RollupStatus;
    var c, s' := s.cons[i], DoWork(su, s, i, io);
    var job, e := c.d.body.job, c.pc.ctx.ev;
    WorkJobs(s.w, job, c.pc, io, su.valid);
    WorkEvents(s.w, job, c.pc, io, su.valid);
    PcAfter(s.w, job, c.pc, io, su.valid);
    KeepsEvents(s.w, job, c.pc, io, su.valid, e);
    if c.pc.MarkJob? || c.pc.MarkEvent? {
      HeldIsPending(s, i, tok);
      assert job in PendingJobs(s'.w.db, e);
    } else if c.pc.Roll? {
      OwnRoll(s.w.db, s'.w.db, c, s'.h.emptied);
    } else if io.AtOnce? {
      AtOnceRow(s.w.db, e, s'.h.emptied);
      AgreesByTables(RollupAtOnce(s.w.db, e), s'.w.db, s'.h.emptied, e);
    } else {
      assert s'.cons[i].Busy? && s'.cons[i].pc.RollingUp() && s'.cons[i].pc.ctx.ev == e;
    }
  }

  lemma OwnRoll(db: Db, db': Db, c: Consumer, emptied: set<nat>)
    requires c.Busy? && c.pc.Roll? && c.pc.ctx.ev in db.events && ReadFresh(db, c) && db'.jobs == db.jobs
    requires db'.events == WriteRollup(db, c.pc.ctx.ev,
                                       RollupStatus(c.pc.verified, c.pc.failed, c.pc.total, c.pc.pending),
                                       c.pc.verified, c.pc.failed, c.pc.total).events
    ensures c.pc.ctx.ev in db'.events
    ensures PendingJobs(db', c.pc.ctx.ev) != {} || RowAgrees(db', emptied, c.pc.ctx.ev)
  {
    var e := c.pc.ctx.ev;
    WrittenRow(db, e, c.pc.verified, c.pc.failed, c.pc.total, c.pc.pending, emptied);
    AgreesByTables(WriteRollup(db, e, RollupStatus(c.pc.verified, c.pc.failed, c.pc.total, c.pc.pending),
                               c.pc.verified, c.pc.failed, c.pc.total), db', emptied, e);
  }

  lemma AgreesByTables(db: Db, db': Db, emptied: set<nat>, e: nat)
    requires db'.jobs == db.jobs && db'.events == db.events && e in db.events
    ensures RowAgrees(db, emptied, e) ==> RowAgrees(db', emptied, e)
    ensures PendingJobs(db', e) == PendingJobs(db, e)
  {
    SameJobsTable(db, db', e);
  }

  lemma KeepsEvents(w: World, job: nat, pc: Pc, io: Io, valid: Collector.Validator, e: nat)
    requires Fits(pc, io) && WellFormed(w.db) && job in w.db.jobs
    ensures e in w.db.events ==> e in Step(w, job, pc, io, valid).0.db.events
    ensures job in Step(w, job, pc, io, valid).0.db.jobs
    ensures Step(w, job, pc, io, valid).0.db.jobs[job].event == w.db.jobs[job].event
  {
    hide Step, WellFormed;
    StepKeeps(w, job, pc, io, valid);
  }

  /** Any other event is untouched. */
  lemma OtherEvent(w: World, job: nat, pc: Pc, io: Io, valid: Collector.Validator, e: nat)
    requires Fits(pc, io) && PcOk(w.db, job, pc) && e in w.db.events
    requires pc.LoadJob? || pc.LoadEvent? || pc.LoadInstance? || pc.Prepare? || pc.Connect? || pc.Execute?
             || (!pc.Returned? && e != pc.ctx.ev)
    ensures SameEvent(w.db, Step(w, job, pc, io, valid).0.db, e)
  {
    hide Step, JobsOf, JobsIn, PendingJobs, RollupStatus;
    var db' := Step(w, job, pc, io, valid).0.db;
    WorkJobs(w, job, pc, io, valid);
    WorkEvents(w, job, pc, io, valid);
    if db'.jobs == w.db.jobs {
      SameJobsTable(w.db, db', e);
    } else {
      ChangedJob(w.db, db'.jobs, job, db'.jobs[job], e);
      SameJobsTable(w.db.(jobs := db'.jobs), db', e);
    }
  }

  lemma AgreeWork(su: Setup, s: State, i: nat, io: Io, tok: map<nat, Loc>)
    requires i < |s.cons| && s.cons[i].Busy? && Fits(s.cons[i].pc, io) && ReplyOf(io).Confirmed?
    requires s.cons[i].pc.Count? ==> (io.AtOnce? <==> !su.torn)
    requires Agree(s) && Serial(su, s) && Placed(s, tok) && References(s)
    ensures Agree(DoWork(su, s, i, io)) && Serial(su, DoWork(su, s, i, io))
  {
    hide DoWork, Step, WellFormed, Placed, EventAgrees, CallsOk, MessagesOk, SameEvent, Dirty;
    var c, s' := s.cons[i], DoWork(su, s, i, io);
    var job := c.d.body.job;
    assert ConsumerOk(s.w.db, c) && ReadFresh(s.w.db, c);
    PcAfter(s.w, job, c.pc, io, su.valid);
    WorkEvents(s.w, job, c.pc, io, su.valid);
    forall e | e in s'.w.db.events ensures EventAgrees(s'.w.db, s'.h.emptied, s'.cons, e) {
      AgreeWorkAt(su, s, i, io, tok, e);
    }
    FreshWork(su, s, i, io);
    assert forall k | 0 <= k < |s.cons| && k != i :: s'.cons[k] == s.cons[k];
  }

  lemma AgreeWorkAt(su: Setup, s: State, i: nat, io: Io, tok: map<nat, Loc>, e: nat)
    requires i < |s.cons| && s.cons[i].Busy? && Fits(s.cons[i].pc, io) && ReplyOf(io).Confirmed?
    requires Placed(s, tok) && WellFormed(s.w.db) && ConsumerOk(s.w.db, s.cons[i]) && ReadFresh(s.w.db, s.cons[i])
    requires e in DoWork(su, s, i, io).w.db.events
    requires forall x | x in s.w.db.events :: EventAgrees(s.w.db, s.h.emptied, s.cons, x)
    ensures var s' := DoWork(su, s, i, io); EventAgrees(s'.w.db, s'.h.emptied, s'.cons, e)
  {
    hide Step, WellFormed, Placed, EventAgrees, SameEvent, Dirty, ReadFresh, WriteEventStatus, WriteRollup;
    hide RollupAtOnce;
    var c, s' := s.cons[i], DoWork(su, s, i, io);
    var job := c.d.body.job;
    WorkEvents(s.w, job, c.pc, io, su.valid);
    EventKeys(s.w, job, c.pc, io, su.valid);
    PcAfter(s.w, job, c.pc, io, su.valid);
    if (c.pc.MarkJob? || c.pc.MarkEvent? || c.pc.Report? || c.pc.RollingUp()) && e == c.pc.ctx.ev {
      OwnEvent(su, s, i, io, tok);
    } else {
      OtherEvent(s.w, job, c.pc, io, su.valid, e);
      DirtyElsewhere(s.cons, s'.cons, i, e);
      AgreesFramed(s.w.db, s'.w.db, s.h.emptied, s'.h.emptied, s.cons, s'.cons, e);
    }
  }

  lemma FreshWork(su: Setup, s: State, i: nat, io: Io)
    requires i < |s.cons| && s.cons[i].Busy? && Fits(s.cons[i].pc, io) && ReplyOf(io).Confirmed?
    requires s.cons[i].pc.Count? ==> (io.AtOnce? <==> !su.torn)
    requires Serial(su, s) && ReadFresh(s.w.db, s.cons[i])
    ensures forall k | 0 <= k < |s.cons| :: ReadFresh(DoWork(su, s, i, io).w.db, DoWork(su, s, i, io).cons[k])
  {
    hide DoWork, Step, JobsOf, JobsIn;
    var c, s' := s.cons[i], DoWork(su, s, i, io);
    PcAfter(s.w, c.d.body.job, c.pc, io, su.valid);
    Truth.ReadBy(s.w, c.d.body.job, c.pc, io, su.valid);
    forall k | 0 <= k < |s.cons| ensures ReadFresh(s'.w.db, s'.cons[k]) {
      assert k != i ==> s'.cons[k] == s.cons[k];
    }
  }

  // ---------- API steps ----------

  lemma FreshFramed(db: Db, db': Db, c: Consumer)
    requires ReadFresh(db, c)
    requires c.Busy? && (c.pc.CountPending? || c.pc.Roll?) ==>
      SameJobSets(db, db', c.pc.ctx.ev) || PendingJobs(db', c.pc.ctx.ev) != {}
    ensures ReadFresh(db', c)
  {
  }

  lemma InsertedEvent(s: State, call: nat, now: int, reply: Reply, e: nat)
    requires call in s.calls && s.calls[call].Checking? && s.calls[call].insts != [] && WellFormed(s.w.db)
    requires e in DoInsert(s, call, now, reply).w.db.events
    ensures var db' := DoInsert(s, call, now, reply).w.db;
      SameEvent(s.w.db, db', e) || PendingJobs(db', e) != {}
  {
    hide CanCreate, DoInsert;
    var db' := DoInsert(s, call, now, reply).w.db;
    InsertJobs(s, call, now, reply);
    InsertEvents(s, call, now, reply, e);
    var ids := JobIds(s.w.db, |s.calls[call].insts|);
    if e !in s.w.db.events {
      assert ids[0] in ids && ids[0] in PendingJobs(db', e);
    } else if reply.Effective() && CanCreate(s.w.db, s.calls[call].info, s.calls[call].insts) {
      SameOldJobs(s.w.db, db', ids, e);
    }
  }

  lemma SameOldJobs(db: Db, db': Db, ids: seq<nat>, e: nat)
    requires forall j | j in db.jobs :: j in db'.jobs && db'.jobs[j] == db.jobs[j]
    requires forall j | j in ids :: j in db'.jobs && db'.jobs[j].event != e
    requires forall j | j in db'.jobs :: j in db.jobs || j in ids
    ensures SameJobSets(db, db', e)
  {
  }

  lemma ResetEvent(s: State, call: nat, ev: nat, jobs: seq<nat>, reply: Reply, e: nat)
    requires call !in s.calls && reply.Confirmed? && ListsFailed(s.w.db, ev, jobs)
    ensures var db' := DoReset(s, call, ev, jobs, reply).w.db;
      && (e == ev && jobs != [] ==> PendingJobs(db', e) != {})
      && (e != ev || jobs == [] ==> SameJobSets(s.w.db, db', e))
  {
    hide ListsFailed, DoReset;
    var db' := DoReset(s, call, ev, jobs, reply).w.db;
    ResetJobs(s, call, ev, jobs, reply);
    if e == ev && jobs != [] {
      assert jobs[0] in jobs && jobs[0] in PendingJobs(db', e);
    }
  }

  lemma WrittenStatus(s: State, call: nat, reply: Reply, e: nat, tok: map<nat, Loc>)
    requires call in s.calls && s.calls[call].NeedStatus? && !s.calls[call].late && reply.Confirmed?
    requires Placed(s, tok) && CallOk(s.w.db, s.calls[call]) && e in s.w.db.events
    requires EventAgrees(s.w.db, s.h.emptied, s.cons, e)
    ensures var s' := DoWriteStatus(s, call, reply);
      e in s'.w.db.events && EventAgrees(s'.w.db, s'.h.emptied, s'.cons, e)
  {
    hide Dirty, Elements, OnlyCall, JobsOf, RollupStatus;
    var c, s' := s.calls[call], DoWriteStatus(s, call, reply);
    SameJobsTable(s.w.db, s'.w.db, e);
    if e == c.ev && c.jobs != [] {
      assert At(s, InCall(call, 0)) == Some(c.jobs[0]) && c.jobs[0] in c.jobs;
      assert c.jobs[0] in PendingJobs(s.w.db, e);
    }
  }

  lemma AgreeCall(su: Setup, s: State, call: nat, step: ApiStep, tok: map<nat, Loc>)
    requires CanCall(su, s, call, step) && ActionReply(Api(call, step)).Confirmed?
    requires Agree(s) && Placed(s, tok) && References(s) && NoneLate(s.calls)
    ensures Agree(DoCall(su, s, call, step))
  {
    hide CanCall, DoCall, WellFormed, Placed, EventAgrees, ReadFresh, CallsOk, MessagesOk, ConsumersOk;
    var s' := DoCall(su, s, call, step);
    forall e | e in s'.w.db.events ensures EventAgrees(s'.w.db, s'.h.emptied, s'.cons, e) {
      AgreeCallAt(su, s, call, step, tok, e);
    }
    forall i | 0 <= i < |s'.cons| ensures ReadFresh(s'.w.db, s'.cons[i]) {
      FreshCall(su, s, call, step, i);
    }
  }

  lemma AgreeCallAt(su: Setup, s: State, call: nat, step: ApiStep, tok: map<nat, Loc>, e: nat)
    requires CanCall(su, s, call, step) && ActionReply(Api(call, step)).Confirmed?
    requires Agree(s) && Placed(s, tok) && References(s) && NoneLate(s.calls)
    requires e in DoCall(su, s, call, step).w.db.events
    ensures var s' := DoCall(su, s, call, step); EventAgrees(s'.w.db, s'.h.emptied, s'.cons, e)
  {
    hide WellFormed, Placed, ReadFresh, MessagesOk, ConsumersOk, Dirty, RowAgrees, PendingJobs;
    hide DoInsert, DoReset, DoPublish, DoWriteStatus, ListsFailed, ValidInput, JobsOf;
    match step
    case Insert(now, reply) =>
      InsertedEvent(s, call, now, reply, e);
      if PendingJobs(DoInsert(s, call, now, reply).w.db, e) == {} {
        AgreesFramed(s.w.db, DoInsert(s, call, now, reply).w.db, s.h.emptied, s.h.emptied, s.cons, s.cons, e);
      }
    case Reset(ev, jobs, reply) =>
      ResetRows(s, call, ev, jobs, reply);
      ResetEvent(s, call, ev, jobs, reply, e);
      if !(e == ev && jobs != []) {
        AgreesFramed(s.w.db, DoReset(s, call, ev, jobs, reply).w.db, s.h.emptied, s.h.emptied, s.cons, s.cons, e);
      }
    case WriteStatus(reply) =>
      StatusKeepsEvents(s, call, reply);
      WrittenStatus(s, call, reply, e, tok);
    case _ =>
  }

  lemma FreshCall(su: Setup, s: State, call: nat, step: ApiStep, i: nat)
    requires CanCall(su, s, call, step) && ActionReply(Api(call, step)).Confirmed?
    requires Agree(s) && References(s) && i < |s.cons|
    ensures ReadFresh(DoCall(su, s, call, step).w.db, s.cons[i])
  {
    hide WellFormed, MessagesOk, EventAgrees, PendingJobs, CtxOk;
    hide DoInsert, DoReset, DoPublish, DoWriteStatus, ListsFailed, ValidInput, JobsOf, SameJobSets, ReadFresh;
    var c := s.cons[i];
    assert ReadFresh(s.w.db, c) && ConsumerOk(s.w.db, c);
    if c.Busy? && (c.pc.CountPending? || c.pc.Roll?) {
      var e := c.pc.ctx.ev;
      CtxEvent(s.w.db, c);
      match step
      case Insert(now, reply) =>
        InsertKeepsEvents(s, call, now, reply);
        InsertedEvent(s, call, now, reply, e);
        FreshFramed(s.w.db, DoInsert(s, call, now, reply).w.db, c);
      case Reset(ev, jobs, reply) =>
        ResetEvent(s, call, ev, jobs, reply, e);
        FreshFramed(s.w.db, DoReset(s, call, ev, jobs, reply).w.db, c);
      case WriteStatus(reply) =>
        StatusKeepsJobs(s, call, reply);
        SameJobsTable(s.w.db, DoWriteStatus(s, call, reply).w.db, e);
        FreshFramed(s.w.db, DoWriteStatus(s, call, reply).w.db, c);
      case _ =>
    } else {
      FreshFramed(s.w.db, DoCall(su, s, call, step).w.db, c);
    }
  }

  lemma CtxEvent(db: Db, c: Consumer)
    requires c.Busy? && (c.pc.CountPending? || c.pc.Roll?) && PcOk(db, c.d.body.job, c.pc)
    ensures c.pc.ctx.ev in db.events
  {
  }

  lemma InsertKeepsEvents(s: State, call: nat, now: int, reply: Reply)
    requires call in s.calls && s.calls[call].Checking?
    ensures s.w.db.events.Keys <= DoInsert(s, call, now, reply).w.db.events.Keys
  {
    hide CanCreate, JobIds, Elements, OnlyCall;
  }

  // ---------- over whole runs ----------

  lemma AgreeQuiet(s: State, s': State, i: nat)
    requires Agree(s) && i < |s.cons| && OnlyConsumer(s, s', i)
    requires s'.w.db.jobs == s.w.db.jobs && s'.w.db.events == s.w.db.events && s'.h.emptied == s.h.emptied
    requires s.cons[i].Busy? ==> !s.cons[i].pc.RollingUp()
    requires s'.cons[i].Busy? ==> s'.cons[i].pc.LoadJob?
    ensures Agree(s')
  {
    hide JobsOf, JobsIn, PendingJobs, RowAgrees, Dirty, ReadFresh;
    forall e | e in s'.w.db.events ensures EventAgrees(s'.w.db, s'.h.emptied, s'.cons, e) {
      SameJobsTable(s.w.db, s'.w.db, e);
      DirtyElsewhere(s.cons, s'.cons, i, e);
      if RowAgrees(s.w.db, s.h.emptied, e) { AgreesByTables(s.w.db, s'.w.db, s.h.emptied, e); }
    }
    forall k | 0 <= k < |s'.cons| ensures ReadFresh(s'.w.db, s'.cons[k]) {
      FreshQuiet(s, s', i, k);
    }
  }

  lemma FreshQuiet(s: State, s': State, i: nat, k: nat)
    requires i < |s.cons| && k < |s.cons| && OnlyConsumer(s, s', i) && s'.w.db.jobs == s.w.db.jobs
    requires s'.cons[i].Busy? ==> s'.cons[i].pc.LoadJob?
    requires ReadFresh(s.w.db, s.cons[k])
    ensures ReadFresh(s'.w.db, s'.cons[k])
  {
    if k != i && s.cons[k].Busy? && (s.cons[k].pc.CountPending? || s.cons[k].pc.Roll?) {
      SameJobsTable(s.w.db, s'.w.db, s.cons[k].pc.ctx.ev);
    }
  }

  lemma AgreeEnvironment(s: State, db': Db)
    requires Agree(s) && db'.jobs == s.w.db.jobs && db'.events == s.w.db.events
    ensures Agree(WithDb(s, db'))
  {
    hide JobsOf, JobsIn, RowAgrees, Dirty, ReadFresh, PendingJobs;
    forall e | e in db'.events ensures EventAgrees(db', s.h.emptied, s.cons, e) {
      SameJobsTable(s.w.db, db', e);
      if RowAgrees(s.w.db, s.h.emptied, e) { AgreesByTables(s.w.db, db', s.h.emptied, e); }
    }
    forall k | 0 <= k < |s.cons| ensures ReadFresh(db', s.cons[k]) {
      FreshTables(s.w.db, db', s.cons[k]);
    }
  }

  lemma FreshTables(db: Db, db': Db, c: Consumer)
    requires db'.jobs == db.jobs && ReadFresh(db, c)
    ensures ReadFresh(db', c)
  {
    if c.Busy? && (c.pc.CountPending? || c.pc.Roll?) { SameJobsTable(db, db', c.pc.ctx.ev); }
  }

  lemma AgreeStep(su: Setup, s: State, a: Action, tok: map<nat, Loc>)
    requires su.FaultFree() && Enabled(su, s, a) && Allowed(su, s, a)
    requires Agree(s) && Serial(su, s) && Placed(s, tok) && Clean(s) && References(s)
    ensures Agree(Apply(su, s, a)) && Serial(su, Apply(su, s, a))
  {
    hide CanCall, DoCall, DoWork, CanDelete, Step, WellFormed, CallsOk, MessagesOk, ConsumersOk, Placed, Agree;
    match a
    case Api(call, step) => AgreeCall(su, s, call, step, tok);
    case Work(i, io) => AgreeWork(su, s, i, io, tok);
    case Deliver(i, tag) => AgreeQuiet(s, DoDeliver(s, i, tag), i);
    case Settle(i, end) =>
      SettleEnds(s, i, end);
      AgreeQuiet(s, DoSettle(s, i, end), i);
    case AddInstance(owner) => AgreeEnvironment(s, InsertInstance(s.w.db, owner));
    case RemoveInstance(inst, _) => AgreeEnvironment(s, DeleteInstance(s.w.db, inst));
  }

  /** The two setups in which RollupEvent cannot be overtaken by another rollup. */
  ghost predicate RollupsInTurn(su: Setup) { su.torn ==> su.consumers <= 1 }

  lemma {:induction false} ReachableAgree(su: Setup, run: seq<Action>)
    requires su.FaultFree() && RollupsInTurn(su) && Legal(su, run)
    ensures Agree(After(su, run)) && Serial(su, After(su, run))
  {
    hide Enabled, Allowed, Apply, Agree, Serial, Placed, Clean, TagsOk, RowsOk, ReadsOk, References;
    if run == [] {
      InitAgree(su);
    } else {
      var before, a := run[..|run| - 1], run[|run| - 1];
      ReachableAgree(su, before);
      var tok := ReachableOrderly(su, before);
      AgreeStep(su, After(su, before), a, tok);
    }
  }

  lemma InitAgree(su: Setup)
    requires RollupsInTurn(su)
    ensures Agree(Init(su)) && Serial(su, Init(su))
  {
  }

  /** Nothing is queued, held by a consumer or awaiting publication. */
  ghost predicate Quiet(s: State) {
    && s.ready == map[]
    && (forall i | 0 <= i < |s.cons| :: s.cons[i].Idle?)
    && (forall c, k: nat | c in s.calls :: !s.calls[c].Owes(k))
  }

  /** All jobs are VERIFIED or FAILED, and every event row agrees with its jobs. */
  ghost predicate Settled(s: State) {
    && (forall j | j in s.w.db.jobs :: !s.w.db.jobs[j].status.Pending())
    && (forall e | e in s.w.db.events :: RowAgrees(s.w.db, s.h.emptied, e))
  }

  /** Final agreement: any number of events and interleaved calls; any number of consumers if a rollup is one
      step, one consumer if it is the real three statements. */
  lemma FinalAgreement(su: Setup, run: seq<Action>)
    requires su.FaultFree() && RollupsInTurn(su) && Legal(su, run) && Quiet(After(su, run))
    ensures Settled(After(su, run))
  {
    hide After, Legal, Structured, Clean;
    var s := After(su, run);
    var tok := ReachableOrderly(su, run);
    ReachableAgree(su, run);
    NothingPending(s, tok);
    forall e | e in s.w.db.events ensures RowAgrees(s.w.db, s.h.emptied, e) {
      assert EventAgrees(s.w.db, s.h.emptied, s.cons, e);
      assert PendingJobs(s.w.db, e) == {};
    }
  }

  ghost predicate JobIs(db: Db, j: nat, e: nat, status: JobStatus) {
    j in db.jobs && db.jobs[j].event == e && db.jobs[j].status == status
  }

  /** COMPLETED, FAILED or PARTIAL, as the event's jobs are all VERIFIED, all FAILED, or both exist. */
  ghost predicate TellsJobs(db: Db, e: nat, status: EventStatus) {
    && (status == EventCompleted <==> forall j | j in db.jobs && db.jobs[j].event == e :: JobIs(db, j, e, JobVerified))
    && (status == EventFailed <==> forall j | j in db.jobs && db.jobs[j].event == e :: JobIs(db, j, e, JobFailed))
    && (status == EventPartial <==>
          (exists j :: JobIs(db, j, e, JobVerified)) && exists j :: JobIs(db, j, e, JobFailed))
  }

  lemma StatusTellsJobs(db: Db, e: nat, j: nat)
    requires PendingJobs(db, e) == {} && j in JobsOf(db, e)
    ensures TellsJobs(db, e, StatusNow(db, e))
  {
    var v, f, all := JobsIn(db, e, JobVerified), JobsIn(db, e, JobFailed), JobsOf(db, e);
    Counts(db, e);
    SubsetSize(v, all);
    SubsetSize(f, all);
    assert v == all <==> forall k | k in db.jobs && db.jobs[k].event == e :: JobIs(db, k, e, JobVerified) by {
      assert forall k | k in db.jobs && db.jobs[k].event == e :: k in all;
    }
    assert f == all <==> forall k | k in db.jobs && db.jobs[k].event == e :: JobIs(db, k, e, JobFailed) by {
      assert forall k | k in db.jobs && db.jobs[k].event == e :: k in all;
    }
    assert v != {} <==> exists k :: JobIs(db, k, e, JobVerified) by {
      if k :| JobIs(db, k, e, JobVerified) { assert k in v; }
      if k :| k in v { assert JobIs(db, k, e, JobVerified); }
    }
    assert f != {} <==> exists k :: JobIs(db, k, e, JobFailed) by {
      if k :| JobIs(db, k, e, JobFailed) { assert k in f; }
      if k :| k in f { assert JobIs(db, k, e, JobFailed); }
    }
  }

  /** What an event shows in the end: counters and status are those of its jobs; only after a rerun that reset
      nothing it shows RUNNING. */
  lemma FinalStatuses(su: Setup, run: seq<Action>, e: nat)
    requires su.FaultFree() && RollupsInTurn(su) && Legal(su, run) && Quiet(After(su, run))
    requires e in After(su, run).w.db.events
    ensures var s := After(su, run);
      var row := s.w.db.events[e];
      && row.verified == |set j | j in s.w.db.jobs && JobIs(s.w.db, j, e, JobVerified)|
      && row.failed == |set j | j in s.w.db.jobs && JobIs(s.w.db, j, e, JobFailed)|
      && row.total == row.verified + row.failed > 0
      && (if e in s.h.emptied then row.status == EventRunning else TellsJobs(s.w.db, e, row.status))
  {
    hide After, Legal, Quiet, TellsJobs, Coverage.RowCovered;
    var s := After(su, run);
    FinalAgreement(su, run);
    ReachableEmptied(su, run);
    var j := SomeJob(su, run, e);
    assert RowAgrees(s.w.db, s.h.emptied, e) && j in JobsOf(s.w.db, e);
    assert PendingJobs(s.w.db, e) == {};
    StatusTellsJobs(s.w.db, e, j);
    Counts(s.w.db, e);
    assert JobsIn(s.w.db, e, JobVerified) == set j | j in s.w.db.jobs && JobIs(s.w.db, j, e, JobVerified);
    assert JobsIn(s.w.db, e, JobFailed) == set j | j in s.w.db.jobs && JobIs(s.w.db, j, e, JobFailed);
    assert JobsOf(s.w.db, e) != {};
  }

  /** Every event has a job, since it has a target. */
  lemma SomeJob(su: Setup, run: seq<Action>, e: nat) returns (j: nat)
    requires Legal(su, run) && e in After(su, run).w.db.events
    ensures j in After(su, run).w.db.jobs && After(su, run).w.db.jobs[j].event == e
  {
    hide After, Legal;
    Ownership.EventsAreValidated(su, run, e);
    Coverage.ReachableCovered(su, run);
    var db := After(su, run).w.db;
    var i :| i in db.events[e].targets;
    assert Coverage.RowCovered(db, e);
    j :| Coverage.JobFor(db, j, e, i);
  }

  lemma NothingPending(s: State, tok: map<nat, Loc>)
    requires Placed(s, tok) && Quiet(s)
    ensures forall j | j in s.w.db.jobs :: !s.w.db.jobs[j].status.Pending()
  {
    hide At, Quiet;
    forall j | j in s.w.db.jobs ensures !s.w.db.jobs[j].status.Pending() {
      if j in tok { EmptyPlace(s, tok[j]); }
    }
  }

  lemma EmptyPlace(s: State, loc: Loc)
    requires Quiet(s)
    ensures At(s, loc) == None
  {
  }

  /** The last status write of these events was RUNNING, by a rerun that reset nothing. */
  ghost predicate EmptiedRun(s: State) {
    forall e | e in s.h.emptied :: e in s.w.db.events && s.w.db.events[e].status == EventRunning
  }

  lemma EmptiedWork(su: Setup, s: State, i: nat, io: Io)
    requires i < |s.cons| && s.cons[i].Busy? && Fits(s.cons[i].pc, io) && EmptiedRun(s)
    ensures EmptiedRun(DoWork(su, s, i, io))
  {
    hide Step, OnlyConsumer, JobsOf, JobsIn, PendingJobs, RollupStatus;
    WorkEvents(s.w, s.cons[i].d.body.job, s.cons[i].pc, io, su.valid);
    EventKeys(s.w, s.cons[i].d.body.job, s.cons[i].pc, io, su.valid);
  }

  lemma EmptiedCall(su: Setup, s: State, call: nat, step: ApiStep)
    requires CanCall(su, s, call, step) && EmptiedRun(s) && WellFormed(s.w.db)
    ensures EmptiedRun(DoCall(su, s, call, step))
  {
    hide WellFormed, DoInsert, DoReset, DoPublish, DoWriteStatus, ListsFailed, ValidInput, Elements, OnlyCall;
    match step
    case Insert(now, reply) =>
      InsertKeepsEvents(s, call, now, reply);
      forall e | e in s.h.emptied { InsertEvents(s, call, now, reply, e); }
    case Reset(ev, jobs, reply) => ResetRows(s, call, ev, jobs, reply);
    case ResetLate(ev, jobs, reply) => ResetRows(s, call, ev, jobs, reply);
    case WriteStatus(reply) => EmptiedStatus(s, call, reply);
    case _ =>
  }

  lemma EmptiedStatus(s: State, call: nat, reply: Reply)
    requires call in s.calls && s.calls[call].NeedStatus? && EmptiedRun(s)
    ensures EmptiedRun(DoWriteStatus(s, call, reply))
  {
    hide Elements, OnlyCall;
  }

  lemma EmptiedStep(su: Setup, s: State, a: Action)
    requires Enabled(su, s, a) && EmptiedRun(s) && WellFormed(s.w.db)
    ensures EmptiedRun(Apply(su, s, a))
  {
    hide CanCall, DoCall, DoWork, DoSettle, CanDelete, Step, WellFormed, CanSettle;
    match a
    case Api(call, step) => EmptiedCall(su, s, call, step);
    case Work(i, io) => EmptiedWork(su, s, i, io);
    case _ =>
  }

  lemma {:induction false} ReachableEmptied(su: Setup, run: seq<Action>)
    requires Legal(su, run)
    ensures EmptiedRun(After(su, run))
  {
    hide Enabled, Allowed, Apply, EmptiedRun, CallsOk, ConsumersOk, MessagesOk, WellFormed, TagsOk, RowsOk, ReadsOk;
    if run == [] {
      NoneEmptied(su);
    } else {
      var before, a := run[..|run| - 1], run[|run| - 1];
      ReachableEmptied(su, before);
      ReachableStructured(su, before);
      EmptiedStep(su, After(su, before), a);
    }
  }

  lemma NoneEmptied(su: Setup)
    ensures EmptiedRun(Init(su))
  {
  }

  /** Exactly which quiet events show a status other than their jobs': those whose last status write came
      from a RerunFailed that reset no job. */
  lemma StaleExactlyIfEmptied(su: Setup, run: seq<Action>, e: nat)
    requires su.FaultFree() && RollupsInTurn(su) && Legal(su, run) && Quiet(After(su, run))
    requires e in After(su, run).w.db.events
    ensures var s := After(su, run);
      s.w.db.events[e].status == StatusNow(s.w.db, e) <==> e !in s.h.emptied
  {
    hide After, Legal, Quiet, CountersAgree, JobsOf, JobsIn;
    var s := After(su, run);
    FinalAgreement(su, run);
    ReachableEmptied(su, run);
    assert PendingJobs(s.w.db, e) == {};
    assert RowAgrees(s.w.db, s.h.emptied, e);
  }

  // ---------- the window in which a terminal status is early ----------

  /** A RerunFailed call between its UPDATE of jobs and its write of RUNNING. */
  predicate Reopening(calls: map<nat, Call>, e: nat) {
    exists c | c in calls :: calls[c].NeedStatus? && calls[c].rerun && calls[c].ev == e
  }

  ghost predicate Windowed(db: Db, calls: map<nat, Call>, e: nat)
    requires e in db.events
  {
    db.events[e].status.Terminal() && PendingJobs(db, e) != {} ==> Reopening(calls, e)
  }

  ghost predicate AllWindowed(s: State) {
    forall e | e in s.w.db.events :: Windowed(s.w.db, s.calls, e)
  }

  lemma WindowWork(su: Setup, s: State, i: nat, io: Io, tok: map<nat, Loc>)
    requires i < |s.cons| && s.cons[i].Busy? && Fits(s.cons[i].pc, io) && ReplyOf(io).Confirmed?
    requires AllWindowed(s) && Placed(s, tok) && References(s) && !s.cons[i].pc.Roll?
    ensures AllWindowed(DoWork(su, s, i, io))
  {
    hide DoWork, Step, WellFormed, Placed, CallsOk, MessagesOk, Windowed;
    var c, s' := s.cons[i], DoWork(su, s, i, io);
    assert ConsumerOk(s.w.db, c);
    EventKeys(s.w, c.d.body.job, c.pc, io, su.valid);
    forall e | e in s'.w.db.events ensures Windowed(s'.w.db, s'.calls, e) { WindowWorkAt(su, s, i, io, tok, e); }
  }

  lemma WindowWorkAt(su: Setup, s: State, i: nat, io: Io, tok: map<nat, Loc>, e: nat)
    requires i < |s.cons| && s.cons[i].Busy? && Fits(s.cons[i].pc, io) && ReplyOf(io).Confirmed?
    requires Placed(s, tok) && WellFormed(s.w.db) && ConsumerOk(s.w.db, s.cons[i]) && !s.cons[i].pc.Roll?
    requires e in s.w.db.events && e in DoWork(su, s, i, io).w.db.events && Windowed(s.w.db, s.calls, e)
    ensures Windowed(DoWork(su, s, i, io).w.db, s.calls, e)
  {
    hide DoWork, Step, WellFormed, Placed, JobsOf, JobsIn;
    var c, s' := s.cons[i], DoWork(su, s, i, io);
    var job := c.d.body.job;
    WorkJobs(s.w, job, c.pc, io, su.valid);
    WorkEvents(s.w, job, c.pc, io, su.valid);
    if c.pc.MarkJob? { HeldIsPending(s, i, tok); }
    if c.pc.Report? { assert Sane(c.pc); }
    assert PendingJobs(s'.w.db, e) <= PendingJobs(s.w.db, e);
  }

  lemma WindowCall(su: Setup, s: State, call: nat, step: ApiStep)
    requires CanCall(su, s, call, step) && ActionReply(Api(call, step)).Confirmed?
    requires AllWindowed(s) && References(s)
    ensures AllWindowed(DoCall(su, s, call, step))
  {
    hide CanCall, DoCall, Windowed, References;
    var s' := DoCall(su, s, call, step);
    forall e | e in s'.w.db.events ensures Windowed(s'.w.db, s'.calls, e) { WindowCallAt(su, s, call, step, e); }
  }

  lemma ReopeningKept(calls: map<nat, Call>, calls': map<nat, Call>, call: nat, e: nat)
    requires forall c | c != call && c in calls :: c in calls' && calls'[c] == calls[c]
    requires call in calls ==> !(calls[call].NeedStatus? && calls[call].rerun && calls[call].ev == e)
    ensures Reopening(calls, e) ==> Reopening(calls', e)
  {
  }

  lemma WindowCallAt(su: Setup, s: State, call: nat, step: ApiStep, e: nat)
    requires CanCall(su, s, call, step) && ActionReply(Api(call, step)).Confirmed?
    requires AllWindowed(s) && References(s) && e in DoCall(su, s, call, step).w.db.events
    ensures var s' := DoCall(su, s, call, step); Windowed(s'.w.db, s'.calls, e)
  {
    hide WellFormed, MessagesOk, ConsumersOk, PendingJobs, Reopening, CallOk;
    hide DoInsert, DoReset, DoPublish, DoWriteStatus, ListsFailed, ValidInput, JobsOf;
    var s' := DoCall(su, s, call, step);
    match step
    case Insert(now, reply) =>
      InsertedRowWindow(s, call, now, reply, e);
      ReopeningKept(s.calls, s'.calls, call, e);
    case Reset(ev, jobs, reply) =>
      ResetRows(s, call, ev, jobs, reply);
      WindowReset(s, call, ev, jobs, reply, e);
    case WriteStatus(reply) =>
      StatusKeepsEvents(s, call, reply);
      WindowStatus(s, call, reply, e);
    case _ => ReopeningKept(s.calls, s'.calls, call, e);
  }

  lemma InsertedRowWindow(s: State, call: nat, now: int, reply: Reply, e: nat)
    requires call in s.calls && s.calls[call].Checking? && s.calls[call].insts != [] && WellFormed(s.w.db)
    requires e in DoInsert(s, call, now, reply).w.db.events
    ensures var db' := DoInsert(s, call, now, reply).w.db;
      !db'.events[e].status.Terminal() ||
      (e in s.w.db.events && db'.events[e] == s.w.db.events[e] && PendingJobs(db', e) == PendingJobs(s.w.db, e))
  {
    hide CanCreate, DoInsert, PendingJobs, WellFormed;
    Truth.InsertedRowIsQueued(s, call, now, reply, e);
    InsertEvents(s, call, now, reply, e);
    if e in s.w.db.events { InsertedOldEvent(s, call, now, reply, e); }
  }

  lemma InsertedOldEvent(s: State, call: nat, now: int, reply: Reply, e: nat)
    requires call in s.calls && s.calls[call].Checking? && WellFormed(s.w.db) && e in s.w.db.events
    ensures PendingJobs(DoInsert(s, call, now, reply).w.db, e) == PendingJobs(s.w.db, e)
  {
    hide CanCreate, DoInsert;
    InsertJobs(s, call, now, reply);
    if reply.Effective() && CanCreate(s.w.db, s.calls[call].info, s.calls[call].insts) {
      SameOldJobs(s.w.db, DoInsert(s, call, now, reply).w.db, JobIds(s.w.db, |s.calls[call].insts|), e);
    }
  }

  lemma WindowReset(s: State, call: nat, ev: nat, jobs: seq<nat>, reply: Reply, e: nat)
    requires call !in s.calls && reply.Confirmed? && ListsFailed(s.w.db, ev, jobs)
    requires e in s.w.db.events && Windowed(s.w.db, s.calls, e)
    ensures var s' := DoReset(s, call, ev, jobs, reply); e in s'.w.db.events && Windowed(s'.w.db, s'.calls, e)
  {
    hide ListsFailed, ResetFailed, Elements, PendingJobs, JobsOf;
    var s' := DoReset(s, call, ev, jobs, reply);
    ResetEvent(s, call, ev, jobs, reply, e);
    ReopeningKept(s.calls, s'.calls, call, e);
    if e == ev { assert s'.calls[call].NeedStatus? && s'.calls[call].rerun && s'.calls[call].ev == e; }
  }

  lemma WindowStatus(s: State, call: nat, reply: Reply, e: nat)
    requires call in s.calls && s.calls[call].NeedStatus? && reply.Confirmed?
    requires e in s.w.db.events && Windowed(s.w.db, s.calls, e)
    ensures var s' := DoWriteStatus(s, call, reply); e in s'.w.db.events && Windowed(s'.w.db, s'.calls, e)
  {
    hide Elements, PendingJobs, JobsOf, Reopening;
    var s' := DoWriteStatus(s, call, reply);
    SameJobsTable(s.w.db, s'.w.db, e);
    if s.calls[call].ev != e { ReopeningKept(s.calls, s'.calls, call, e); }
  }

  lemma WindowStep(su: Setup, s: State, a: Action, tok: map<nat, Loc>)
    requires su.FaultFree() && !su.torn && Enabled(su, s, a) && Allowed(su, s, a)
    requires AllWindowed(s) && Serial(su, s) && Placed(s, tok) && References(s)
    ensures AllWindowed(Apply(su, s, a))
  {
    hide CanCall, DoCall, DoWork, DoSettle, CanDelete, Step, References, Placed, Windowed, CanSettle;
    match a
    case Api(call, step) => WindowCall(su, s, call, step);
    case Work(i, io) => WindowWork(su, s, i, io, tok);
    case AddInstance(owner) =>
      forall e | e in s.w.db.events { WindowTables(s.w.db, InsertInstance(s.w.db, owner), s.calls, e); }
    case RemoveInstance(inst, _) =>
      forall e | e in s.w.db.events { WindowTables(s.w.db, DeleteInstance(s.w.db, inst), s.calls, e); }
    case _ =>
  }

  lemma WindowTables(db: Db, db': Db, calls: map<nat, Call>, e: nat)
    requires db'.jobs == db.jobs && db'.events == db.events && e in db.events && Windowed(db, calls, e)
    ensures Windowed(db', calls, e)
  {
    SameJobsTable(db, db', e);
  }

  /** With atomic rollups an event is COMPLETED, PARTIAL or FAILED while one of its jobs is pending only
      while a RerunFailed call stands between its two UPDATEs. */
  lemma {:induction false} EarlyTerminalWindow(su: Setup, run: seq<Action>)
    requires su.FaultFree() && !su.torn && Legal(su, run)
    ensures AllWindowed(After(su, run))
  {
    hide Enabled, Allowed, Apply, AllWindowed, Serial, Agree, Placed, Clean, TagsOk, RowsOk, ReadsOk, References;
    if run == [] {
      InitWindowed(su);
    } else {
      var before, a := run[..|run| - 1], run[|run| - 1];
      EarlyTerminalWindow(su, before);
      var tok := ReachableOrderly(su, before);
      ReachableAgree(su, before);
      WindowStep(su, After(su, before), a, tok);
    }
  }

  lemma InitWindowed(su: Setup)
    ensures AllWindowed(Init(su))
  {
  }

  // ---------- events being worked on ----------

  /** The handler has written RUNNING on its event and not yet its job's result. */
  predicate InHand(c: Consumer) {
    c.Busy? && (c.pc.Prepare? || c.pc.Connect? || c.pc.Execute? || c.pc.Report?)
  }

  ghost predicate Shown(db: Db, c: Consumer) {
    InHand(c) ==> c.pc.ctx.ev in db.events && db.events[c.pc.ctx.ev].status == EventRunning
  }

  ghost predicate AllShown(s: State) {
    forall i | 0 <= i < |s.cons| :: Shown(s.w.db, s.cons[i])
  }

  /** Who has an event in hand after a step: who wrote RUNNING just now, or had it before. */
  lemma HandAfter(w: World, job: nat, pc: Pc, io: Io, valid: Collector.Validator)
    requires Fits(pc, io)
    ensures var pc' := Step(w, job, pc, io, valid).1;
      pc'.Prepare? || pc'.Connect? || pc'.Execute? || pc'.Report? ==>
        && (pc.MarkEvent? || pc.Prepare? || pc.Connect? || pc.Execute?) && pc'.ctx == pc.ctx
  {
    hide JobsIn, JobsOf, PendingJobs, WriteRollup, WriteEventStatus, RollupAtOnce, RollupStatus;
    hide MarkJobRunning, WriteJobResult, Trust, Collector.RunTask;
  }

  lemma WrittenRunning(db: Db, ev: nat, e: nat)
    requires e in db.events && (e == ev || db.events[e].status == EventRunning)
    ensures var db' := WriteEventStatus(db, ev, EventRunning);
      e in db'.events && db'.events[e].status == EventRunning
  {
  }

  lemma RolledRunning(db: Db, ev: nat, e: nat)
    requires e in db.events && db.events[e].status == EventRunning && PendingJobs(db, e) != {}
    ensures var db' := RollupAtOnce(db, ev); e in db'.events && db'.events[e].status == EventRunning
  {
    hide JobsIn, JobsOf, PendingJobs;
  }

  lemma ShownOwn(su: Setup, s: State, i: nat, io: Io)
    requires i < |s.cons| && s.cons[i].Busy? && Fits(s.cons[i].pc, io) && ReplyOf(io).Confirmed?
    requires Shown(s.w.db, s.cons[i]) && ConsumerOk(s.w.db, s.cons[i])
    ensures Shown(DoWork(su, s, i, io).w.db, DoWork(su, s, i, io).cons[i])
  {
    hide DoWork, Step, WriteEventStatus, RollupAtOnce, WriteRollup, JobsOf, JobsIn, PendingJobs;
    var c, s' := s.cons[i], DoWork(su, s, i, io);
    HandAfter(s.w, c.d.body.job, c.pc, io, su.valid);
    if InHand(s'.cons[i]) {
      WorkEvents(s.w, c.d.body.job, c.pc, io, su.valid);
      WrittenRunning(s.w.db, c.pc.ctx.ev, c.pc.ctx.ev);
    }
  }

  lemma ShownOther(su: Setup, s: State, i: nat, io: Io, k: nat, tok: map<nat, Loc>)
    requires i < |s.cons| && s.cons[i].Busy? && Fits(s.cons[i].pc, io) && ReplyOf(io).Confirmed?
    requires k < |s.cons| && k != i && Shown(s.w.db, s.cons[k]) && ConsumerOk(s.w.db, s.cons[k])
    requires Serial(su, s) && Placed(s, tok)
    ensures Shown(DoWork(su, s, i, io).w.db, s.cons[k])
  {
    hide DoWork, Step, WriteEventStatus, RollupAtOnce, WriteRollup, JobsOf, JobsIn, PendingJobs, Placed;
    var c, o := s.cons[i], s.cons[k];
    if InHand(o) {
      WorkEvents(s.w, c.d.body.job, c.pc, io, su.valid);
      HeldIsPending(s, k, tok);
      if WritesStatus(c.pc, io) {
        if c.pc.MarkEvent? {
          WrittenRunning(s.w.db, c.pc.ctx.ev, o.pc.ctx.ev);
        } else {
          RolledRunning(s.w.db, c.pc.ctx.ev, o.pc.ctx.ev);
        }
      }
    }
  }

  lemma ShownWork(su: Setup, s: State, i: nat, io: Io, tok: map<nat, Loc>)
    requires i < |s.cons| && s.cons[i].Busy? && Fits(s.cons[i].pc, io) && ReplyOf(io).Confirmed?
    requires AllShown(s) && References(s) && Serial(su, s) && Placed(s, tok)
    ensures AllShown(DoWork(su, s, i, io))
  {
    hide DoWork, Step, Shown, WellFormed, CallsOk, MessagesOk, Serial, Placed;
    var s' := DoWork(su, s, i, io);
    forall k | 0 <= k < |s'.cons| ensures Shown(s'.w.db, s'.cons[k]) {
      assert ConsumerOk(s.w.db, s.cons[k]);
      if k == i { ShownOwn(su, s, i, io); } else { ShownOther(su, s, i, io, k, tok); }
    }
  }

  lemma ShownCall(su: Setup, s: State, call: nat, step: ApiStep)
    requires CanCall(su, s, call, step) && AllShown(s) && WellFormed(s.w.db)
    ensures AllShown(DoCall(su, s, call, step))
  {
    hide WellFormed, DoInsert, DoReset, DoPublish, DoWriteStatus, ListsFailed, ValidInput, CanCreate;
    var s' := DoCall(su, s, call, step);
    forall i | 0 <= i < |s.cons| && InHand(s.cons[i]) ensures Shown(s'.w.db, s.cons[i]) {
      assert Shown(s.w.db, s.cons[i]);
      ShownAfterCall(su, s, call, step, s.cons[i].pc.ctx.ev);
    }
  }

  lemma ShownAfterCall(su: Setup, s: State, call: nat, step: ApiStep, e: nat)
    requires CanCall(su, s, call, step) && WellFormed(s.w.db)
    requires e in s.w.db.events && s.w.db.events[e].status == EventRunning
    ensures var db' := DoCall(su, s, call, step).w.db; e in db'.events && db'.events[e].status == EventRunning
  {
    hide WellFormed, DoInsert, DoReset, DoPublish, DoWriteStatus, ListsFailed, ValidInput, CanCreate, WriteEventStatus;
    match step
    case Insert(now, reply) =>
      InsertKeepsEvents(s, call, now, reply);
      InsertEvents(s, call, now, reply, e);
    case Reset(ev, jobs, reply) => ResetRows(s, call, ev, jobs, reply);
    case ResetLate(ev, jobs, reply) => ResetRows(s, call, ev, jobs, reply);
    case WriteStatus(reply) => WrittenRunning(s.w.db, s.calls[call].ev, e);
    case _ =>
  }

  lemma ShownStep(su: Setup, s: State, a: Action, tok: map<nat, Loc>)
    requires su.FaultFree() && Enabled(su, s, a) && Allowed(su, s, a)
    requires AllShown(s) && Serial(su, s) && Placed(s, tok) && References(s)
    ensures AllShown(Apply(su, s, a))
  {
    hide CanCall, DoCall, DoWork, DoSettle, CanDelete, Step, Placed, CanSettle, Serial, CallsOk, MessagesOk, WellFormed;
    match a
    case Api(call, step) => ShownCall(su, s, call, step);
    case Work(i, io) => ShownWork(su, s, i, io, tok);
    case Settle(i, end) => SettleEnds(s, i, end);
    case _ =>
  }

  /** Where rollups cannot overtake each other, torn with one consumer included: an event one of whose jobs is
      being connected to, run or reported shows RUNNING. So an early terminal status is never seen on an event
      that is being worked on; the next handler overwrites it before it connects. */
  lemma {:induction false} WorkedOnShowsRunning(su: Setup, run: seq<Action>)
    requires su.FaultFree() && RollupsInTurn(su) && Legal(su, run)
    ensures AllShown(After(su, run))
  {
    hide Enabled, Allowed, Apply, AllShown, Serial, Agree, Placed, Clean, TagsOk, RowsOk, ReadsOk, References;
    if run == [] {
      InitShown(su);
    } else {
      var before, a := run[..|run| - 1], run[|run| - 1];
      WorkedOnShowsRunning(su, before);
      var tok := ReachableOrderly(su, before);
      ReachableAgree(su, before);
      ShownStep(su, After(su, before), a, tok);
    }
  }

  lemma InitShown(su: Setup)
    ensures AllShown(Init(su))
  {
  }
}
