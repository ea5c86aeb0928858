/** Where a job's work is waiting, and how every step moves it. Without faults there is exactly one such
    place for each QUEUED or RUNNING job and none for any other, although the UPDATEs of jobs are unguarded. */
module Tokens {
  import opened Types
  import opened Sql
  import opened Handler
  import opened Machine
  import opened Structure
  import Collector
  import HostKey
  import Retry

  /** A place in a call's list of jobs to publish, in the queue, or with a consumer. */
  datatype Loc = InCall(call: nat, k: nat) | InReady(tag: nat) | InCons(i: nat)

  /** The consumer holds a message and has not written the job's result. */
  predicate Holds(c: Consumer) {
    (c.Busy? && c.pc.Early()) || (c.RepublishFailed? && !c.wrote)
  }

  /** The job whose work waits at a place. */
  function At(s: State, loc: Loc): Option<nat> {
    match loc
    case InCall(c, k) => if c in s.calls && s.calls[c].Owes(k) then Some(s.calls[c].jobs[k]) else None
    case InReady(t) => if t in s.ready then Some(s.ready[t].body.job) else None
    case InCons(i) => if i < |s.cons| && Holds(s.cons[i]) then Some(s.cons[i].d.body.job) else None
  }

  // ---------- how each step changes the places, whatever fails ----------

  lemma AtQuiet(su: Setup, s: State, call: nat, step: ApiStep, loc: Loc)
    requires CanCall(su, s, call, step) && (step.StartCreate? || step.CheckOwner? || step.Finish?)
    ensures At(DoCall(su, s, call, step), loc) == At(s, loc)
  {
    hide ValidInput;
  }

  lemma AtInsert(s: State, call: nat, now: int, reply: Reply, loc: Loc)
    requires call in s.calls && s.calls[call].Checking?
    ensures At(DoInsert(s, call, now, reply), loc) ==
            if reply.Confirmed? && CanCreate(s.w.db, s.calls[call].info, s.calls[call].insts)
               && loc.InCall? && loc.call == call && loc.k < |s.calls[call].insts|
            then Some(JobIds(s.w.db, |s.calls[call].insts|)[loc.k]) else At(s, loc)
  {
    hide CreateEvent, CanCreate, Elements;
  }

  lemma AtReset(s: State, call: nat, ev: nat, jobs: seq<nat>, reply: Reply, loc: Loc)
    requires call !in s.calls
    ensures At(DoReset(s, call, ev, jobs, reply), loc) ==
            if reply.Confirmed? && loc.InCall? && loc.call == call && loc.k < |jobs|
            then Some(jobs[loc.k]) else At(s, loc)
  {
    hide ResetFailed, Elements;
  }

  lemma AtWriteStatus(s: State, call: nat, reply: Reply, loc: Loc)
    requires call in s.calls && s.calls[call].NeedStatus?
    ensures At(DoWriteStatus(s, call, reply), loc) ==
            if !reply.Confirmed? && loc.InCall? && loc.call == call then None else At(s, loc)
  {
    hide WriteEventStatus, Elements;
  }

  lemma AtReadBack(s: State, call: nat, reply: Reply, loc: Loc)
    requires call in s.calls && s.calls[call].NeedEvent?
    ensures At(DoReadBack(s, call, reply), loc) ==
            if !(reply.Confirmed? && s.calls[call].ev in s.w.db.events) && loc.InCall? && loc.call == call
            then None else At(s, loc)
  {
    hide Elements;
  }

  lemma AtPublish(s: State, call: nat, reply: Reply, loc: Loc)
    requires call in s.calls && s.calls[call].Publishing? && s.calls[call].pos < |s.calls[call].jobs|
    ensures At(DoPublish(s, call, reply), loc) ==
            if reply.Effective() && loc == InReady(s.nextTag) then Some(s.calls[call].jobs[s.calls[call].pos])
            else if loc.InCall? && loc.call == call && (!reply.Confirmed? || loc.k == s.calls[call].pos) then None
            else At(s, loc)
  {
    hide Elements, MessageFor;
  }

  lemma AtDeliver(s: State, i: nat, tag: nat, loc: Loc)
    requires i < |s.cons| && tag in s.ready
    ensures At(DoDeliver(s, i, tag), loc) ==
            if loc == InReady(tag) then None
            else if loc == InCons(i) then Some(s.ready[tag].body.job) else At(s, loc)
  {
  }

  lemma AtWork(su: Setup, s: State, i: nat, io: Io, loc: Loc)
    requires i < |s.cons| && s.cons[i].Busy? && Fits(s.cons[i].pc, io)
    ensures At(DoWork(su, s, i, io), loc) ==
            if loc == InCons(i) && !Step(s.w, s.cons[i].d.body.job, s.cons[i].pc, io, su.valid).1.Early()
            then None else if loc == InCons(i) then Some(s.cons[i].d.body.job) else At(s, loc)
  {
    hide Step, DoWork;
    var s' := DoWork(su, s, i, io);
    assert loc.InCons? && loc.i < |s.cons| && loc.i != i ==> s'.cons[loc.i] == s.cons[loc.i];
  }

  lemma AtSettle(s: State, i: nat, end: SettleStep, loc: Loc)
    requires i < |s.cons| && CanSettle(s.cons[i], end)
    ensures At(DoSettle(s, i, end), loc) ==
            if end.Crash? && loc == InReady(s.cons[i].tag) then Some(s.cons[i].d.body.job)
            else if end.Republish? && end.reply.Effective() && loc == InReady(s.nextTag)
            then Some(s.cons[i].d.body.job)
            else if loc == InCons(i) && !(end.Republish? && !end.reply.Confirmed?) then None
            else At(s, loc)
  {
    hide Retry.Next, Retry.Exhausted;
  }

  // ---------- runs without faults ----------

  /** Without faults no handler or reset fails, so nothing is retried, dead-lettered or abandoned. */
  ghost predicate Clean(s: State) {
    s.dlq == map[] && s.h.abandoned == {} && NoneLate(s.calls) && Untroubled(s.cons)
  }

  /** No handler has failed. */
  ghost predicate Untroubled(cons: seq<Consumer>) {
    forall i | 0 <= i < |cons| ::
      cons[i].Idle? || (cons[i].Busy? && (cons[i].pc.Returned? ==> !cons[i].pc.err && cons[i].pc.wrote))
  }

  predicate NoneLate(calls: map<nat, Call>) {
    forall c | c in calls :: calls[c].NeedStatus? ==> !calls[c].late
  }

  /** The handler has marked its job RUNNING. */
  predicate Marked(pc: Pc) {
    pc.MarkEvent? || pc.Prepare? || pc.Connect? || pc.Execute? || pc.Report?
  }

  function StatusAt(s: State, loc: Loc): (status: JobStatus)
    ensures status.Pending()
  {
    if loc.InCons? && loc.i < |s.cons| && s.cons[loc.i].Busy? && Marked(s.cons[loc.i].pc) then JobRunning else JobQueued
  }

  /** `tok` names the one place of every pending job; what waits anywhere is a pending job in the status
      its place implies. */
  ghost predicate Placed(s: State, tok: map<nat, Loc>) {
    && (forall j | j in s.w.db.jobs && s.w.db.jobs[j].status.Pending() :: j in tok && At(s, tok[j]) == Some(j))
    && (forall loc | At(s, loc).Some? ::
          At(s, loc).value in tok && tok[At(s, loc).value] == loc
          && At(s, loc).value in s.w.db.jobs && s.w.db.jobs[At(s, loc).value].status == StatusAt(s, loc))
  }

  lemma UntroubledWork(su: Setup, s: State, i: nat, io: Io)
    requires i < |s.cons| && s.cons[i].Busy? && Fits(s.cons[i].pc, io) && ReplyOf(io).Confirmed?
    requires Untroubled(s.cons) && WellFormed(s.w.db) && ConsumerOk(s.w.db, s.cons[i])
    ensures Untroubled(DoWork(su, s, i, io).cons)
  {
    hide WellFormed, DoWork, DoConnect, DoExecute, RollupAtOnce, WriteRollup, WriteJobResult, MarkJobRunning;
    var c, s' := s.cons[i], DoWork(su, s, i, io);
    RowsExist(s.w.db, c);
    assert !s'.cons[i].pc.Returned? || (!s'.cons[i].pc.err && s'.cons[i].pc.wrote);
    assert forall k | 0 <= k < |s.cons| && k != i :: s'.cons[k] == s.cons[k];
    hide Step;
  }

  lemma RowsExist(db: Db, c: Consumer)
    requires WellFormed(db) && ConsumerOk(db, c) && c.Busy?
    ensures var job := c.d.body.job;
      job in db.jobs && db.jobs[job].event in db.events && db.jobs[job].inst in db.instances
  {
    assert Linked(db, db.jobs[c.d.body.job]);
  }

  lemma CleanStep(su: Setup, s: State, a: Action)
    requires su.FaultFree() && Enabled(su, s, a) && Allowed(su, s, a)
    requires Clean(s) && References(s)
    ensures Clean(Apply(su, s, a))
  {
    hide CanDelete, DeleteInstance, InsertInstance, CanCall, DoWork, Step, WellFormed, CallsOk, MessagesOk;
    match a
    case Api(call, step) => CleanCall(su, s, call, step);
    case Work(i, io) =>
      assert ConsumerOk(s.w.db, s.cons[i]);
      UntroubledWork(su, s, i, io);
    case _ =>
  }

  /** Crashes alone make no handler fail. */
  lemma UntroubledStep(su: Setup, s: State, a: Action)
    requires !su.refusals && !su.losses && Enabled(su, s, a) && Allowed(su, s, a)
    requires Untroubled(s.cons) && References(s)
    ensures Untroubled(Apply(su, s, a).cons)
  {
    hide CanDelete, DeleteInstance, InsertInstance, CanCall, DoCall, DoWork, Step, WellFormed, CallsOk, MessagesOk;
    if a.Work? {
      assert ConsumerOk(s.w.db, s.cons[a.i]);
      UntroubledWork(su, s, a.i, a.io);
    }
  }

  lemma CleanCall(su: Setup, s: State, call: nat, step: ApiStep)
    requires CanCall(su, s, call, step) && ActionReply(Api(call, step)).Confirmed?
    requires Clean(s) && References(s)
    ensures Clean(DoCall(su, s, call, step))
  {
    hide CreateEvent, CanCreate, ResetFailed, WriteEventStatus, ListsFailed, JobIds, MessageFor, ConsumersOk;
    hide MessagesOk, WellFormed;
    if step.ReadBack? {
      assert CallOk(s.w.db, s.calls[call]);
      if s.calls[call].jobs == [] {
        assert Elements(s.calls[call].jobs) == {};
      } else {
        assert s.calls[call].jobs[0] in s.calls[call].jobs;
        JobsHaveEvents(s.w.db, s.calls[call].jobs[0]);
      }
    }
  }

  lemma JobsHaveEvents(db: Db, j: nat)
    requires WellFormed(db) && j in db.jobs
    ensures db.jobs[j].event in db.events
  {
    assert Linked(db, db.jobs[j]);
  }

  /** The only job row a handler step changes, and how. */
  lemma WorkJobs(w: World, job: nat, pc: Pc, io: Io, valid: Collector.Validator)
    requires Fits(pc, io)
    ensures var jobs' := Step(w, job, pc, io, valid).0.db.jobs;
      if pc.MarkJob? && io.reply.Effective() then jobs' == MarkJobRunning(w.db, job).jobs
      else if pc.Report? && io.reply.Effective() then jobs' == WriteJobResult(w.db, job, pc.status, pc.exit).jobs
      else jobs' == w.db.jobs
  {
    hide DoConnect, DoExecute, MarkJobRunning, WriteJobResult, JobsIn, JobsOf, PendingJobs;
  }

  lemma PlacedWork(su: Setup, s: State, i: nat, io: Io, tok: map<nat, Loc>)
    requires i < |s.cons| && s.cons[i].Busy? && Fits(s.cons[i].pc, io) && ReplyOf(io).Confirmed?
    requires Placed(s, tok) && WellFormed(s.w.db) && ConsumerOk(s.w.db, s.cons[i])
    ensures Placed(DoWork(su, s, i, io), tok)
  {
    hide DoWork, Step, WellFormed;
    var c, s' := s.cons[i], DoWork(su, s, i, io);
    var job := c.d.body.job;
    RowsExist(s.w.db, c);
    WorkJobs(s.w, job, c.pc, io, su.valid);
    StepStage(s.w, job, c.pc, io, su.valid);
    forall loc ensures At(s', loc) ==
              if loc == InCons(i) && !s'.cons[i].pc.Early() then None
              else if loc == InCons(i) then Some(job) else At(s, loc) {
      AtWork(su, s, i, io, loc);
    }
    forall loc ensures loc != InCons(i) ==> StatusAt(s', loc) == StatusAt(s, loc) {
      assert loc.InCons? && loc.i < |s.cons| && loc.i != i ==> s'.cons[loc.i] == s.cons[loc.i];
    }
    assert c.pc.Early() ==> At(s, InCons(i)) == Some(job);
  }

  /** How a confirmed handler step moves between the stages before MarkJob, after it, and after the result. */
  lemma StepStage(w: World, job: nat, pc: Pc, io: Io, valid: Collector.Validator)
    requires Fits(pc, io) && ReplyOf(io).Confirmed?
    requires job in w.db.jobs && w.db.jobs[job].event in w.db.events && w.db.jobs[job].inst in w.db.instances
    requires PcOk(w.db, job, pc)
    ensures var pc' := Step(w, job, pc, io, valid).1;
      && (pc'.Early() <==> pc.Early() && !pc.Report?)
      && (pc'.Early() ==> (Marked(pc') <==> Marked(pc) || pc.MarkJob?))
  {
    hide DoConnect, RollupAtOnce, WriteRollup, WriteJobResult, MarkJobRunning, JobsIn, JobsOf, PendingJobs;
    hide Collector.RunTask, HostKey.Connect;
  }

  /** Job rows and statuses, seen from the places: nothing changed. */
  lemma PlacedSame(s: State, s': State, tok: map<nat, Loc>)
    requires Placed(s, tok) && s'.w.db.jobs == s.w.db.jobs && s'.cons == s.cons
    requires forall loc :: At(s', loc) == At(s, loc)
    ensures Placed(s', tok)
  {
    hide At;
    assert forall loc :: StatusAt(s', loc) == StatusAt(s, loc);
  }

  /** A call takes charge of `jobs`, which become QUEUED and waited nowhere before. */
  lemma PlacedAdd(s: State, s': State, call: nat, jobs: seq<nat>, tok: map<nat, Loc>) returns (tok': map<nat, Loc>)
    requires Placed(s, tok) && Distinct(jobs)
    requires forall k :: At(s, InCall(call, k)) == None
    requires forall loc :: StatusAt(s', loc) == StatusAt(s, loc)
    requires forall loc :: At(s', loc) ==
               if loc.InCall? && loc.call == call && loc.k < |jobs| then Some(jobs[loc.k]) else At(s, loc)
    requires forall j | j in jobs :: j in s'.w.db.jobs && s'.w.db.jobs[j].status == JobQueued
                                     && (j in s.w.db.jobs ==> !s.w.db.jobs[j].status.Pending())
    requires forall j | j in s.w.db.jobs && j !in jobs ::
               j in s'.w.db.jobs && s'.w.db.jobs[j].status == s.w.db.jobs[j].status
    requires forall j | j in s'.w.db.jobs :: j in s.w.db.jobs || j in jobs
    ensures Placed(s', tok')
  {
    hide At, StatusAt;
    tok' := tok + map j | j in jobs :: InCall(call, IndexOf(jobs, j));
    forall loc | At(s', loc).Some?
      ensures At(s', loc).value in tok' && tok'[At(s', loc).value] == loc
      ensures At(s', loc).value in s'.w.db.jobs
      ensures s'.w.db.jobs[At(s', loc).value].status == StatusAt(s', loc)
    {
      if loc.InCall? && loc.call == call && loc.k < |jobs| {
        assert jobs[loc.k] in jobs;
        InCallIsQueued(s', loc);
      }
    }
  }

  lemma OwesNothing(s: State, call: nat, k: nat)
    requires call in s.calls ==> s.calls[call].Checking?
    ensures At(s, InCall(call, k)) == None
  {
  }

  lemma InCallIsQueued(s: State, loc: Loc)
    requires loc.InCall?
    ensures StatusAt(s, loc) == JobQueued
  {
  }

  lemma SameStages(s: State, s': State, loc: Loc)
    requires s'.cons == s.cons
    ensures StatusAt(s', loc) == StatusAt(s, loc)
  {
  }

  lemma PlacedInsert(s: State, call: nat, now: int, reply: Reply, tok: map<nat, Loc>) returns (tok': map<nat, Loc>)
    requires call in s.calls && s.calls[call].Checking? && reply.Confirmed?
    requires Placed(s, tok) && WellFormed(s.w.db)
    ensures Placed(DoInsert(s, call, now, reply), tok')
  {
    hide At, StatusAt, CanCreate, Elements, WellFormed, DoInsert, CreateEvent, Placed;
    var c, s' := s.calls[call], DoInsert(s, call, now, reply);
    forall k { OwesNothing(s, call, k); }
    forall loc { AtInsert(s, call, now, reply, loc); }
    forall loc { SameStages(s, s', loc); }
    InsertJobs(s, call, now, reply);
    if CanCreate(s.w.db, c.info, c.insts) {
      forall j | j in s.w.db.jobs { FreshIds(s.w.db, |c.insts|, j); }
      tok' := PlacedAdd(s, s', call, JobIds(s.w.db, |c.insts|), tok);
    } else {
      PlacedSame(s, s', tok);
      tok' := tok;
    }
  }

  lemma FreshIds(db: Db, n: nat, j: nat)
    requires WellFormed(db) && j in db.jobs
    ensures j !in JobIds(db, n)
  {
  }

  /** The job rows a transaction adds are all QUEUED. */
  lemma InsertJobs(s: State, call: nat, now: int, reply: Reply)
    requires call in s.calls && s.calls[call].Checking? && WellFormed(s.w.db)
    ensures var c, jobs' := s.calls[call], DoInsert(s, call, now, reply).w.db.jobs;
      if reply.Effective() && CanCreate(s.w.db, c.info, c.insts)
      then && (forall j | j in s.w.db.jobs :: j in jobs' && jobs'[j] == s.w.db.jobs[j])
           && (forall j | j in JobIds(s.w.db, |c.insts|) ::
                 j in jobs' && jobs'[j].status == JobQueued && jobs'[j].event == s.w.db.next)
           && (forall j | j in jobs' :: j in s.w.db.jobs || j in JobIds(s.w.db, |c.insts|))
      else jobs' == s.w.db.jobs
  {
    hide CanCreate, OnlyCall, Elements;
  }

  lemma PlacedReset(s: State, call: nat, ev: nat, jobs: seq<nat>, reply: Reply, tok: map<nat, Loc>)
    returns (tok': map<nat, Loc>)
    requires call !in s.calls && reply.Confirmed? && ListsFailed(s.w.db, ev, jobs)
    requires Placed(s, tok)
    ensures Placed(DoReset(s, call, ev, jobs, reply), tok')
  {
    hide At, StatusAt, DoReset, Placed, ListsFailed;
    var s' := DoReset(s, call, ev, jobs, reply);
    forall k { OwesNothing(s, call, k); }
    forall loc { AtReset(s, call, ev, jobs, reply, loc); }
    forall loc { SameStages(s, s', loc); }
    ResetJobs(s, call, ev, jobs, reply);
    tok' := PlacedAdd(s, s', call, jobs, tok);
  }

  /** The UPDATE of a rerun turns exactly the listed jobs from FAILED to QUEUED. */
  lemma ResetJobs(s: State, call: nat, ev: nat, jobs: seq<nat>, reply: Reply)
    requires call !in s.calls && reply.Effective() && ListsFailed(s.w.db, ev, jobs)
    ensures var jobs' := DoReset(s, call, ev, jobs, reply).w.db.jobs;
      && Distinct(jobs) && jobs'.Keys == s.w.db.jobs.Keys
      && (forall j | j in jobs :: j in s.w.db.jobs && s.w.db.jobs[j].status == JobFailed
                                  && s.w.db.jobs[j].event == ev
                                  && jobs'[j].status == JobQueued && jobs'[j].event == ev)
      && (forall j | j in s.w.db.jobs && j !in jobs :: jobs'[j] == s.w.db.jobs[j])
  {
    hide OnlyCall;
    forall j ensures j in jobs <==> j in JobsIn(s.w.db, ev, JobFailed) { assert j in jobs <==> j in Elements(jobs); }
  }

  function IndexOf(s: seq<nat>, x: nat): (k: nat)
    requires x in s
    ensures k < |s| && s[k] == x
  {
    if s[0] == x then 0 else 1 + IndexOf(s[1..], x)
  }

  lemma PlacedPublish(s: State, call: nat, reply: Reply, tok: map<nat, Loc>) returns (tok': map<nat, Loc>)
    requires call in s.calls && s.calls[call].Publishing? && s.calls[call].pos < |s.calls[call].jobs|
    requires reply.Confirmed? && Placed(s, tok) && TagsOk(s)
    ensures Placed(DoPublish(s, call, reply), tok')
  {
    var c, s' := s.calls[call], DoPublish(s, call, reply);
    assert At(s, InCall(call, c.pos)) == Some(c.jobs[c.pos]) && At(s, InReady(s.nextTag)) == None;
    hide At, DoPublish, TagsOk;
    forall loc { AtPublish(s, call, reply, loc); }
    forall loc ensures StatusAt(s', loc) == StatusAt(s, loc) {}
    tok' := tok[c.jobs[c.pos] := InReady(s.nextTag)];
  }

  lemma PlacedDeliver(s: State, i: nat, tag: nat, tok: map<nat, Loc>) returns (tok': map<nat, Loc>)
    requires i < |s.cons| && s.cons[i].Idle? && tag in s.ready && Placed(s, tok)
    ensures Placed(DoDeliver(s, i, tag), tok')
  {
    var s', j := DoDeliver(s, i, tag), s.ready[tag].body.job;
    assert At(s, InReady(tag)) == Some(j) && At(s, InCons(i)) == None;
    forall loc ensures loc != InCons(i) ==> StatusAt(s', loc) == StatusAt(s, loc) {}
    assert StatusAt(s', InCons(i)) == JobQueued;
    hide At, DoDeliver;
    forall loc { AtDeliver(s, i, tag, loc); }
    tok' := tok[j := InCons(i)];
  }

  lemma PlacedAck(s: State, i: nat, tok: map<nat, Loc>)
    requires i < |s.cons| && CanSettle(s.cons[i], Ack) && s.cons[i].pc.wrote && Placed(s, tok)
    ensures Placed(DoSettle(s, i, Ack), tok)
  {
    var s' := DoSettle(s, i, Ack);
    assert At(s, InCons(i)) == None;
    forall loc ensures loc != InCons(i) ==> StatusAt(s', loc) == StatusAt(s, loc) {}
    hide At, DoSettle;
    forall loc { AtSettle(s, i, Ack, loc); }
  }

  lemma PlacedCall(su: Setup, s: State, call: nat, step: ApiStep, tok: map<nat, Loc>) returns (tok': map<nat, Loc>)
    requires CanCall(su, s, call, step) && ActionReply(Api(call, step)).Confirmed?
    requires Placed(s, tok) && References(s) && TagsOk(s)
    ensures Placed(DoCall(su, s, call, step), tok')
  {
    hide At, Placed, WellFormed, TagsOk, ListsFailed, ValidInput, DoInsert, DoReset, DoPublish, DoWriteStatus;
    hide DoReadBack, MessagesOk, ConsumersOk;
    tok' := tok;
    match step
    case ResetLate(_, _, _) => assert false;
    case Die => assert false;
    case Insert(now, reply) => tok' := PlacedInsert(s, call, now, reply, tok);
    case Reset(ev, jobs, reply) => tok' := PlacedReset(s, call, ev, jobs, reply, tok);
    case Publish(reply) => tok' := PlacedPublish(s, call, reply, tok);
    case WriteStatus(reply) =>
      forall loc { AtWriteStatus(s, call, reply, loc); }
      StatusKeepsJobs(s, call, reply);
      PlacedSame(s, DoWriteStatus(s, call, reply), tok);
    case ReadBack(reply) =>
      forall loc { ReadBackKeepsPlace(s, call, reply, loc); }
      PlacedSame(s, DoReadBack(s, call, reply), tok);
    case _ =>
      forall loc { AtQuiet(su, s, call, step, loc); }
      PlacedSame(s, DoCall(su, s, call, step), tok);
  }

  lemma StatusKeepsJobs(s: State, call: nat, reply: Reply)
    requires call in s.calls && s.calls[call].NeedStatus?
    ensures DoWriteStatus(s, call, reply).w.db.jobs == s.w.db.jobs
  {
    hide Elements, OnlyCall;
  }

  lemma ReadBackKeepsPlace(s: State, call: nat, reply: Reply, loc: Loc)
    requires call in s.calls && s.calls[call].NeedEvent? && reply.Confirmed?
    requires WellFormed(s.w.db) && CallsOk(s.w.db, s.calls)
    ensures At(DoReadBack(s, call, reply), loc) == At(s, loc)
  {
    AtReadBack(s, call, reply, loc);
    var c := s.calls[call];
    assert CallOk(s.w.db, c);
    if c.jobs != [] {
      assert c.jobs[0] in c.jobs;
      JobsHaveEvents(s.w.db, c.jobs[0]);
    }
  }

  lemma PlacedStep(su: Setup, s: State, a: Action, tok: map<nat, Loc>) returns (tok': map<nat, Loc>)
    requires su.FaultFree() && Enabled(su, s, a) && Allowed(su, s, a)
    requires Placed(s, tok) && Clean(s) && References(s) && TagsOk(s)
    ensures Placed(Apply(su, s, a), tok')
  {
    hide At, Placed, WellFormed, TagsOk, CanCall, DoCall, DoWork, DoSettle, DoDeliver, CanDelete, Step, CallsOk;
    hide MessagesOk;
    tok' := tok;
    match a
    case Api(call, step) => tok' := PlacedCall(su, s, call, step, tok);
    case Deliver(i, tag) => tok' := PlacedDeliver(s, i, tag, tok);
    case Work(i, io) =>
      assert ConsumerOk(s.w.db, s.cons[i]);
      PlacedWork(su, s, i, io, tok);
    case Settle(i, end) => PlacedAck(s, i, tok);
    case Quit(_) => assert false;
    case _ =>
      forall loc { AtEnvironment(su, s, a, loc); }
      PlacedSame(s, Apply(su, s, a), tok);
  }

  lemma AtEnvironment(su: Setup, s: State, a: Action, loc: Loc)
    requires Enabled(su, s, a) && (a.AddInstance? || a.RemoveInstance? || a.Quit?)
    ensures At(Apply(su, s, a), loc) == At(s, loc)
  {
    hide CanDelete;
  }

  /** Everything that holds in every reachable state of a run without faults. */
  ghost predicate Orderly(s: State, tok: map<nat, Loc>) {
    Structured(s) && Clean(s) && Placed(s, tok)
  }

  lemma {:induction false} ReachableOrderly(su: Setup, run: seq<Action>) returns (tok: map<nat, Loc>)
    requires su.FaultFree() && Legal(su, run)
    ensures Orderly(After(su, run), tok)
  {
    hide Apply, Enabled, Allowed, At;
    if run == [] {
      tok := map[];
      InitPlaced(su);
    } else {
      var before, a := run[..|run| - 1], run[|run| - 1];
      var s := After(su, before);
      tok := ReachableOrderly(su, before);
      StructuredStep(su, s, a);
      CleanStep(su, s, a);
      tok := PlacedStep(su, s, a, tok);
    }
  }

  /** No handler fails where only crashes happen. */
  lemma {:induction false} ReachableUntroubled(su: Setup, run: seq<Action>)
    requires !su.refusals && !su.losses && Legal(su, run)
    ensures Untroubled(After(su, run).cons)
  {
    hide Apply, Enabled, Allowed, Untroubled, Structured, References, TagsOk, RowsOk, ReadsOk;
    if run == [] {
      InitUntroubled(su);
    } else {
      var before, a := run[..|run| - 1], run[|run| - 1];
      ReachableUntroubled(su, before);
      ReachableReferences(su, before);
      UntroubledStep(su, After(su, before), a);
    }
  }

  lemma ReachableReferences(su: Setup, run: seq<Action>)
    requires Legal(su, run)
    ensures References(After(su, run))
  {
    hide After, Legal, References, TagsOk, RowsOk, ReadsOk;
    ReachableStructured(su, run);
  }

  lemma InitUntroubled(su: Setup)
    ensures Untroubled(Init(su).cons)
  {
  }

  lemma InitPlaced(su: Setup)
    ensures Orderly(Init(su), map[])
  {
  }
}
