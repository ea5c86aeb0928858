/** Invariants that hold in every reachable state, whatever fails: keys, tags, what handlers and calls
    remember of the rows, and event rows that are consistent in themselves. */
module Structure {
  import opened Types
  import opened Sql
  import opened Handler
  import opened Machine
  import Collector
  import HostKey

  // ---------- the database only grows ----------

  lemma StepKeeps(w: World, job: nat, pc: Pc, io: Io, valid: Collector.Validator)
    requires Fits(pc, io) && WellFormed(w.db)
    ensures Keeps(w.db, Step(w, job, pc, io, valid).0.db)
  {
    hide Keeps, WellFormed, HostKey.Connect, MarkJobRunning, WriteEventStatus, WriteJobResult, WriteRollup;
    hide RollupAtOnce;
    hide Collector.RunTask, JobsIn, JobsOf, PendingJobs;
    UnchangedKeeps(w.db);
    match pc
    case MarkJob(_) => MarkKeeps(w.db, job);
    case MarkEvent(ctx) => StatusKeeps(w.db, ctx.ev, EventRunning);
    case Connect(ctx) => ConnectKeeps(w.db, ctx.inst, ctx.pin, io.dial);
    case Execute(ctx) => ConnectKeeps(w.db, ctx.inst, ctx.pin, io.dial);
    case Report(_, status, exit) => ResultKeeps(w.db, job, status, exit);
    case Count(ctx) => AtOnceKeeps(w.db, ctx.ev);
    case Roll(ctx, v, f, t, p) => RollupKeeps(w.db, ctx.ev, RollupStatus(v, f, t, p), v, f, t);
    case _ =>
  }

  lemma UnchangedKeeps(db: Db)
    requires WellFormed(db)
    ensures Keeps(db, db)
  {
  }

  lemma AtOnceKeeps(db: Db, ev: nat)
    requires WellFormed(db)
    ensures Keeps(db, RollupAtOnce(db, ev))
  {
    hide Keeps, WellFormed, WriteRollup;
    var v, f, t := |JobsIn(db, ev, JobVerified)|, |JobsIn(db, ev, JobFailed)|, |JobsOf(db, ev)|;
    RollupKeeps(db, ev, RollupStatus(v, f, t, |PendingJobs(db, ev)|), v, f, t);
  }

  lemma ConnectKeeps(db: Db, inst: nat, pin: Option<string>, dial: HostKey.Dial)
    requires WellFormed(db)
    ensures Keeps(db, HostKey.Connect(db, inst, pin, dial).0)
  {
    hide Keeps, WellFormed, PinHostKey;
    UnchangedKeeps(db);
    if dial.Presented? { PinKeeps(db, inst, dial.key); }
  }

  lemma CallKeeps(su: Setup, s: State, call: nat, step: ApiStep)
    requires CanCall(su, s, call, step) && WellFormed(s.w.db)
    ensures Keeps(s.w.db, DoCall(su, s, call, step).w.db)
  {
    hide Keeps, WellFormed, CanCreate, CreateEvent, ResetFailed, WriteEventStatus, ListsFailed, ValidInput, JobIds;
    hide Elements;
    hide OnlyCall;
    UnchangedKeeps(s.w.db);
    match step
    case Insert(now, _) =>
      var c := s.calls[call];
      if CanCreate(s.w.db, c.info, c.insts) { CreateEventKeeps(s.w.db, c.info, c.insts, now); }
    case Reset(ev, _, _) => ResetKeeps(s.w.db, ev);
    case ResetLate(ev, _, _) => ResetKeeps(s.w.db, ev);
    case WriteStatus(_) => StatusKeeps(s.w.db, s.calls[call].ev, EventRunning);
    case _ =>
  }

  lemma DbStep(su: Setup, s: State, a: Action)
    requires Enabled(su, s, a) && WellFormed(s.w.db)
    ensures Keeps(s.w.db, Apply(su, s, a).w.db)
  {
    hide Keeps, WellFormed, CanCall, DoCall, CanDelete, DeleteInstance, InsertInstance, CanSettle, Step;
    UnchangedKeeps(s.w.db);
    match a
    case AddInstance(owner) => AddKeeps(s.w.db, owner);
    case RemoveInstance(inst, owner) => DeleteKeeps(s.w.db, inst, owner);
    case Api(call, step) => CallKeeps(su, s, call, step);
    case Work(i, io) => StepKeeps(s.w, s.cons[i].d.body.job, s.cons[i].pc, io, su.valid);
    case _ =>
  }

  // ---------- calls, messages and handlers refer to rows that exist ----------

  ghost predicate CallOk(db: Db, c: Call) {
    !c.Checking? ==>
      (forall j | j in c.jobs :: j in db.jobs && db.jobs[j].event == c.ev)
      && (c.NeedStatus? && !c.rerun ==> c.jobs != [])
  }

  ghost predicate CallsOk(db: Db, calls: map<nat, Call>) {
    forall c | c in calls :: CallOk(db, calls[c]) && (calls[c].Checking? ==> calls[c].insts != [])
  }

  ghost predicate CtxOk(db: Db, job: nat, ctx: Ctx) {
    && job in db.jobs && db.jobs[job].event == ctx.ev && db.jobs[job].inst == ctx.inst
    && ctx.ev in db.events && ctx.inst in db.instances
    && ctx.task == db.events[ctx.ev].info.task
    && ctx.config == ScriptConfig(db.events[ctx.ev].info)
    && (ctx.pin.Some? ==> db.instances[ctx.inst].pin == ctx.pin)
  }

  ghost predicate PcOk(db: Db, job: nat, pc: Pc) {
    match pc
    case LoadJob => true
    case LoadEvent(ev, inst) => job in db.jobs && db.jobs[job].event == ev && db.jobs[job].inst == inst
    case LoadInstance(ev, inst, task, config) =>
      && job in db.jobs && db.jobs[job].event == ev && db.jobs[job].inst == inst && ev in db.events
      && task == db.events[ev].info.task
      && config == ScriptConfig(db.events[ev].info)
    case Returned(_, _) => true
    case _ => CtxOk(db, job, pc.ctx)
  }

  ghost predicate ConsumerOk(db: Db, c: Consumer) {
    && (!c.Idle? ==> c.d.body.job in db.jobs)
    && (c.Busy? ==> PcOk(db, c.d.body.job, c.pc) && Sane(c.pc))
  }

  ghost predicate ConsumersOk(db: Db, cons: seq<Consumer>) {
    forall i | 0 <= i < |cons| :: ConsumerOk(db, cons[i])
  }

  ghost predicate MessagesOk(db: Db, ready: map<nat, Delivery>) {
    forall t | t in ready :: ready[t].body.job in db.jobs
  }

  ghost predicate References(s: State) {
    && WellFormed(s.w.db) && CallsOk(s.w.db, s.calls) && ConsumersOk(s.w.db, s.cons)
    && MessagesOk(s.w.db, s.ready) && MessagesOk(s.w.db, s.dlq)
  }

  lemma PcSurvives(db: Db, db': Db, job: nat, pc: Pc)
    requires WellFormed(db) && Keeps(db, db') && PcOk(db, job, pc)
    ensures PcOk(db', job, pc)
  {
    if job in db.jobs { assert Linked(db, db.jobs[job]); }
  }

  /** What was fine stays fine when the database moves on. */
  lemma ReferencesSurvive(s: State, db': Db)
    requires References(s) && Keeps(s.w.db, db')
    ensures References(WithDb(s, db'))
  {
    forall i | 0 <= i < |s.cons| && s.cons[i].Busy? ensures PcOk(db', s.cons[i].d.body.job, s.cons[i].pc) {
      PcSurvives(s.w.db, db', s.cons[i].d.body.job, s.cons[i].pc);
    }
  }

  lemma StepPcOk(w: World, job: nat, pc: Pc, io: Io, valid: Collector.Validator)
    requires Fits(pc, io) && WellFormed(w.db) && PcOk(w.db, job, pc)
    ensures PcOk(Step(w, job, pc, io, valid).0.db, job, Step(w, job, pc, io, valid).1)
  {
    hide Step, WellFormed, Keeps, CtxOk;
    StepKeeps(w, job, pc, io, valid);
    PcSurvives(w.db, Step(w, job, pc, io, valid).0.db, job, pc);
    if pc.LoadJob? || pc.LoadEvent? || pc.LoadInstance? {
      LoadPcOk(w, job, pc, io, valid);
    } else if !pc.Returned? {
      SameCtx(w, job, pc, io, valid);
    }
  }

  lemma SameCtx(w: World, job: nat, pc: Pc, io: Io, valid: Collector.Validator)
    requires Fits(pc, io) && !pc.LoadJob? && !pc.LoadEvent? && !pc.LoadInstance?
    ensures var pc' := Step(w, job, pc, io, valid).1;
      pc'.Returned? || (!pc'.LoadJob? && !pc'.LoadEvent? && !pc'.LoadInstance? && pc'.ctx == pc.ctx)
  {
    hide HostKey.Connect, MarkJobRunning, WriteEventStatus, WriteJobResult, WriteRollup;
    hide Collector.RunTask, RollupAtOnce, JobsIn, JobsOf, PendingJobs;
  }

  lemma StepSane(w: World, job: nat, pc: Pc, io: Io, valid: Collector.Validator)
    requires Fits(pc, io)
    ensures Sane(Step(w, job, pc, io, valid).1)
  {
    hide MarkJobRunning, WriteEventStatus, WriteJobResult, WriteRollup, RollupAtOnce, JobsIn, JobsOf, PendingJobs;
    hide DoConnect, DoExecute;
  }

  lemma LoadPcOk(w: World, job: nat, pc: Pc, io: Io, valid: Collector.Validator)
    requires Fits(pc, io) && WellFormed(w.db) && PcOk(w.db, job, pc)
    requires pc.LoadJob? || pc.LoadEvent? || pc.LoadInstance?
    ensures PcOk(w.db, job, Step(w, job, pc, io, valid).1) && Step(w, job, pc, io, valid).0 == w
  {
    hide WellFormed, DoConnect, DoExecute;
  }

  lemma InsertedJobsOk(db: Db, c: Call, now: int)
    requires c.Checking? && c.insts != [] && WellFormed(db) && CanCreate(db, c.info, c.insts)
    ensures CallOk(CreateEvent(db, c.info, c.insts, now),
                   NeedStatus(db.next, JobIds(db, |c.insts|), false, c.info.task, false))
  {
    CreatedJobs(db, c.info, c.insts, now);
    var db' := CreateEvent(db, c.info, c.insts, now);
    forall j | j in JobIds(db, |c.insts|) ensures j in db'.jobs && db'.jobs[j].event == db.next {
      assert j in Elements(JobIds(db, |c.insts|));
      assert j in JobsOf(db', db.next);
    }
  }

  lemma ResetJobsOk(db: Db, ev: nat, jobs: seq<nat>)
    requires ListsFailed(db, ev, jobs)
    ensures CallOk(ResetFailed(db, ev), NeedStatus(ev, jobs, true, UnknownTask(""), false))
  {
    forall j | j in jobs ensures j in db.jobs && db.jobs[j].event == ev {
      assert j in Elements(jobs);
    }
  }

  lemma CallsCall(su: Setup, s: State, call: nat, step: ApiStep)
    requires CanCall(su, s, call, step) && References(s)
    requires CallsOk(DoCall(su, s, call, step).w.db, s.calls)
    ensures CallsOk(DoCall(su, s, call, step).w.db, DoCall(su, s, call, step).calls)
  {
    hide WellFormed, ConsumersOk, MessagesOk, ListsFailed, DoInsert, DoReset, DoPublish, MessageFor, DoWriteStatus;
    match step
    case Insert(now, _) => CallsInsert(s, call, now, step.reply);
    case Reset(ev, jobs, _) => CallsReset(s, call, ev, jobs, step.reply);
    case ResetLate(ev, jobs, _) => CallsResetLate(s, call, ev, jobs, step.reply);
    case WriteStatus(_) => CallsWriteStatus(s, call, step.reply);
    case Publish(_) => CallsPublish(s, call, step.reply);
    case _ =>
  }

  lemma CallsInsert(s: State, call: nat, now: int, reply: Reply)
    requires call in s.calls && s.calls[call].Checking? && References(s)
    requires CallsOk(DoInsert(s, call, now, reply).w.db, s.calls)
    ensures CallsOk(DoInsert(s, call, now, reply).w.db, DoInsert(s, call, now, reply).calls)
  {
    hide WellFormed, ConsumersOk, MessagesOk, CanCreate, CreateEvent, JobIds, Elements, OnlyCall;
    if CanCreate(s.w.db, s.calls[call].info, s.calls[call].insts) { InsertedJobsOk(s.w.db, s.calls[call], now); }
  }

  lemma CallsReset(s: State, call: nat, ev: nat, jobs: seq<nat>, reply: Reply)
    requires call !in s.calls && ListsFailed(s.w.db, ev, jobs)
    requires CallsOk(DoReset(s, call, ev, jobs, reply).w.db, s.calls)
    ensures CallsOk(DoReset(s, call, ev, jobs, reply).w.db, DoReset(s, call, ev, jobs, reply).calls)
  {
    hide ResetFailed, Elements, OnlyCall, ListsFailed;
    ResetJobsOk(s.w.db, ev, jobs);
  }

  lemma CallsResetLate(s: State, call: nat, ev: nat, jobs: seq<nat>, reply: Reply)
    requires call !in s.calls && ListsFailed(s.w.db, ev, jobs) && !reply.Confirmed?
    requires CallsOk(DoResetLate(s, call, ev, jobs, reply).w.db, s.calls)
    ensures CallsOk(DoResetLate(s, call, ev, jobs, reply).w.db, DoResetLate(s, call, ev, jobs, reply).calls)
  {
    hide ResetFailed, Elements, OnlyCall, ListsFailed;
    ResetJobsOk(s.w.db, ev, jobs);
  }

  lemma CallsWriteStatus(s: State, call: nat, reply: Reply)
    requires call in s.calls && s.calls[call].NeedStatus?
    requires CallsOk(DoWriteStatus(s, call, reply).w.db, s.calls)
    ensures CallsOk(DoWriteStatus(s, call, reply).w.db, DoWriteStatus(s, call, reply).calls)
  {
    hide WriteEventStatus, Elements, OnlyCall;
  }

  lemma CallsPublish(s: State, call: nat, reply: Reply)
    requires call in s.calls && s.calls[call].Publishing? && s.calls[call].pos < |s.calls[call].jobs|
    requires CallsOk(s.w.db, s.calls)
    ensures CallsOk(s.w.db, DoPublish(s, call, reply).calls)
  {
    hide Elements, OnlyCall, MessageFor;
  }

  /** What Publish adds to the queue is about a job of the call's list. */
  lemma PublishMessages(s: State, call: nat, reply: Reply)
    requires call in s.calls && s.calls[call].Publishing? && s.calls[call].pos < |s.calls[call].jobs|
    requires CallsOk(s.w.db, s.calls) && MessagesOk(s.w.db, s.ready)
    ensures MessagesOk(s.w.db, DoPublish(s, call, reply).ready)
  {
    hide Elements, OnlyCall, MessageFor;
    var c := s.calls[call];
    assert CallOk(s.w.db, c) && c.jobs[c.pos] in c.jobs;
  }

  lemma ReferencesCall(su: Setup, s: State, call: nat, step: ApiStep)
    requires CanCall(su, s, call, step) && References(s)
    ensures References(DoCall(su, s, call, step))
  {
    hide WellFormed, ConsumersOk, CallsOk, MessagesOk, Keeps, ListsFailed, ValidInput, DoPublish, DoInsert, DoReset;
    hide DoWriteStatus;
    hide DoStart, DoCheck, DoReadBack, DoFinish;
    var s' := DoCall(su, s, call, step);
    CallKeeps(su, s, call, step);
    ReferencesSurvive(s, s'.w.db);
    CallsCall(su, s, call, step);
    if step.Publish? { PublishMessages(s, call, step.reply); }
  }

  lemma WorkConsumers(su: Setup, s: State, i: nat, io: Io)
    requires i < |s.cons| && s.cons[i].Busy? && Fits(s.cons[i].pc, io) && References(s)
    requires ConsumersOk(DoWork(su, s, i, io).w.db, s.cons)
    ensures ConsumersOk(DoWork(su, s, i, io).w.db, DoWork(su, s, i, io).cons)
  {
    hide WellFormed, Step, PcOk, DoWork, MessagesOk, CallsOk, Sane;
    StepSane(s.w, s.cons[i].d.body.job, s.cons[i].pc, io, su.valid);
    StepPcOk(s.w, s.cons[i].d.body.job, s.cons[i].pc, io, su.valid);
  }

  lemma SettleReferences(s: State, i: nat, end: SettleStep)
    requires i < |s.cons| && CanSettle(s.cons[i], end) && References(s)
    ensures References(DoSettle(s, i, end))
  {
    hide WellFormed, PcOk, CallsOk, OnlyConsumer;
  }

  lemma DeliverReferences(s: State, i: nat, tag: nat)
    requires i < |s.cons| && tag in s.ready && References(s)
    ensures References(DoDeliver(s, i, tag))
  {
    hide WellFormed, CallsOk, OnlyConsumer;
  }

  lemma ReferencesStep(su: Setup, s: State, a: Action)
    requires Enabled(su, s, a) && References(s)
    ensures References(Apply(su, s, a))
  {
    hide WellFormed, CallsOk, Keeps, CanCall, DoCall, CanDelete, DeleteInstance, InsertInstance, DoWork, DoDeliver;
    hide DoSettle;
    hide ConsumersOk, MessagesOk, CanSettle, Step;
    DbStep(su, s, a);
    ReferencesSurvive(s, Apply(su, s, a).w.db);
    match a
    case Api(call, step) => ReferencesCall(su, s, call, step);
    case Work(i, io) => WorkConsumers(su, s, i, io);
    case Settle(i, end) => SettleReferences(s, i, end);
    case Deliver(i, tag) => DeliverReferences(s, i, tag);
    case _ =>
  }

  // ---------- delivery tags ----------

  ghost predicate TagsOk(s: State) {
    && (forall t | t in s.ready :: t < s.nextTag && t !in s.dlq)
    && (forall t | t in s.dlq :: t < s.nextTag)
    && (forall i | 0 <= i < |s.cons| && !s.cons[i].Idle? ::
          s.cons[i].tag < s.nextTag && s.cons[i].tag !in s.ready && s.cons[i].tag !in s.dlq)
    && (forall i, k | 0 <= i < k < |s.cons| && !s.cons[i].Idle? && !s.cons[k].Idle? ::
          s.cons[i].tag != s.cons[k].tag)
  }

  lemma TagsSettle(s: State, i: nat, end: SettleStep)
    requires i < |s.cons| && CanSettle(s.cons[i], end) && TagsOk(s)
    ensures TagsOk(DoSettle(s, i, end))
  {
  }

  lemma TagsCall(su: Setup, s: State, call: nat, step: ApiStep)
    requires CanCall(su, s, call, step) && TagsOk(s)
    ensures TagsOk(DoCall(su, s, call, step))
  {
    hide CreateEvent, ResetFailed, WriteEventStatus, ListsFailed, ValidInput, JobIds, Elements, CanCreate, MessageFor;
  }

  lemma TagsStep(su: Setup, s: State, a: Action)
    requires Enabled(su, s, a) && TagsOk(s)
    ensures TagsOk(Apply(su, s, a)) && |Apply(su, s, a).cons| == |s.cons|
  {
    hide CanDelete, DeleteInstance, InsertInstance, Step, CanCall, DoCall, CanSettle, DoSettle, DoWork;
    if a.Settle? {
      TagsSettle(s, a.i, a.end);
    } else if a.Api? {
      TagsCall(su, s, a.call, a.step);
    }
  }

  // ---------- event rows ----------

  ghost predicate Consistent(e: Event) {
    && e.verified + e.failed <= e.total
    && (e.status.EventCompleted? ==> e.verified == e.total && e.failed == 0)
    && (e.status.EventFailed? ==> e.failed == e.total && e.verified == 0)
    && (e.status.EventPartial? ==> e.verified < e.total && e.failed < e.total)
  }

  ghost predicate RowsOk(db: Db) {
    forall e | e in db.events :: Consistent(db.events[e]) && db.events[e].total == |JobsOf(db, e)|
  }

  ghost predicate ReadOk(db: Db, c: Consumer) {
    c.Busy? && (c.pc.CountPending? || c.pc.Roll?) ==>
      c.pc.verified + c.pc.failed <= c.pc.total && c.pc.total == |JobsOf(db, c.pc.ctx.ev)|
  }

  /** What a rollup has read so far adds up, and its total is still the event's number of jobs. */
  ghost predicate ReadsOk(db: Db, cons: seq<Consumer>) {
    forall i | 0 <= i < |cons| :: ReadOk(db, cons[i])
  }

  lemma ReadsSurvive(db: Db, db': Db, cons: seq<Consumer>)
    requires WellFormed(db) && Keeps(db, db') && ConsumersOk(db, cons) && ReadsOk(db, cons)
    ensures ReadsOk(db', cons)
  {
    forall i | 0 <= i < |cons| && cons[i].Busy? && (cons[i].pc.CountPending? || cons[i].pc.Roll?)
      ensures ReadOk(db', cons[i])
    {
      assert ConsumerOk(db, cons[i]) && ReadOk(db, cons[i]);
      JobsOfStable(db, db', cons[i].pc.ctx.ev);
    }
  }

  lemma ReadsWork(su: Setup, s: State, i: nat, io: Io)
    requires i < |s.cons| && s.cons[i].Busy? && Fits(s.cons[i].pc, io)
    requires ReadsOk(s.w.db, s.cons) && ReadsOk(DoWork(su, s, i, io).w.db, s.cons)
    ensures ReadsOk(DoWork(su, s, i, io).w.db, DoWork(su, s, i, io).cons)
  {
    hide DoWork, DoConnect, DoExecute, WriteJobResult, WriteRollup, MarkJobRunning, WriteEventStatus, RollupAtOnce;
    if s.cons[i].pc.Count? { Counts(s.w.db, s.cons[i].pc.ctx.ev); }
    var s' := DoWork(su, s, i, io);
    assert ReadOk(s.w.db, s.cons[i]) && ReadOk(s'.w.db, s.cons[i]);
    assert ReadOk(s'.w.db, s'.cons[i]);
  }

  lemma ReadsStep(su: Setup, s: State, a: Action)
    requires Enabled(su, s, a) && References(s) && ReadsOk(s.w.db, s.cons)
    ensures ReadsOk(Apply(su, s, a).w.db, Apply(su, s, a).cons)
  {
    hide WellFormed, CallsOk, MessagesOk, Keeps, CanCall, DoCall, CanDelete, DeleteInstance, InsertInstance, Step;
    hide DoWork;
    hide ConsumersOk, DoSettle, CanSettle;
    DbStep(su, s, a);
    ReadsSurvive(s.w.db, Apply(su, s, a).w.db, s.cons);
    match a
    case Work(i, io) => ReadsWork(su, s, i, io);
    case Settle(i, end) => SettleEnds(s, i, end);
    case _ =>
  }

  lemma SettleEnds(s: State, i: nat, end: SettleStep)
    requires i < |s.cons| && CanSettle(s.cons[i], end)
    ensures !DoSettle(s, i, end).cons[i].Busy?
  {
    hide OnlyConsumer;
  }

  /** RollupEvent is the only statement that writes an event's counters, and it writes ones that add up. */
  lemma RowsWork(w: World, job: nat, pc: Pc, io: Io, valid: Collector.Validator)
    requires Fits(pc, io) && RowsOk(w.db) && WellFormed(w.db)
    requires pc.CountPending? || pc.Roll? ==>
      pc.verified + pc.failed <= pc.total && pc.total == |JobsOf(w.db, pc.ctx.ev)|
    ensures RowsOk(Step(w, job, pc, io, valid).0.db)
  {
    var db' := Step(w, job, pc, io, valid).0.db;
    StepKeeps(w, job, pc, io, valid);
    StepRows(w, job, pc, io, valid);
    hide Step, WellFormed, Consistent, Keeps;
    forall e | e in db'.events ensures Consistent(db'.events[e]) && db'.events[e].total == |JobsOf(db', e)| {
      SameJobs(w.db, db', e);
    }
  }

  lemma SameJobs(db: Db, db': Db, ev: nat)
    requires Keeps(db, db') && ev in db.events
    ensures JobsOf(db, ev) == JobsOf(db', ev)
  {
  }

  lemma StepRows(w: World, job: nat, pc: Pc, io: Io, valid: Collector.Validator)
    requires Fits(pc, io) && RowsOk(w.db)
    requires pc.CountPending? || pc.Roll? ==>
      pc.verified + pc.failed <= pc.total && pc.total == |JobsOf(w.db, pc.ctx.ev)|
    ensures var db' := Step(w, job, pc, io, valid).0.db;
      && db'.events.Keys == w.db.events.Keys
      && forall e | e in db'.events :: Consistent(db'.events[e]) && db'.events[e].total == |JobsOf(w.db, e)|
  {
    hide JobsOf, JobsIn, PendingJobs, DoConnect, DoExecute;
    if pc.Count? { Counts(w.db, pc.ctx.ev); }
  }

  lemma RowsCall(su: Setup, s: State, call: nat, step: ApiStep)
    requires CanCall(su, s, call, step) && WellFormed(s.w.db) && RowsOk(s.w.db)
    ensures RowsOk(DoCall(su, s, call, step).w.db)
  {
    hide Keeps, DoCall, CanCall, WellFormed, Consistent, JobsOf;
    var db, db' := s.w.db, DoCall(su, s, call, step).w.db;
    CallKeeps(su, s, call, step);
    forall e | e in db'.events ensures Consistent(db'.events[e]) && db'.events[e].total == |JobsOf(db', e)| {
      CallRow(su, s, call, step, e);
      if e in db.events { SameJobs(db, db', e); }
    }
  }

  lemma CallRow(su: Setup, s: State, call: nat, step: ApiStep, e: nat)
    requires CanCall(su, s, call, step) && WellFormed(s.w.db) && RowsOk(s.w.db)
    requires e in DoCall(su, s, call, step).w.db.events
    ensures var db' := DoCall(su, s, call, step).w.db;
      if e in s.w.db.events then Consistent(db'.events[e]) && db'.events[e].total == s.w.db.events[e].total
      else Consistent(db'.events[e]) && db'.events[e].total == |JobsOf(db', e)|
  {
    hide ListsFailed, ValidInput, JobsOf, WellFormed, OnlyCall, DoInsert, DoReset, DoWriteStatus;
    match step
    case Insert(now, reply) => InsertRow(s, call, now, reply, e);
    case Reset(ev, jobs, reply) => assert DoReset(s, call, ev, jobs, reply).w.db.events == s.w.db.events by {
      ResetRows(s, call, ev, jobs, reply); }
    case ResetLate(ev, jobs, reply) => ResetRows(s, call, ev, jobs, reply);
    case WriteStatus(reply) => StatusRow(s, call, reply, e);
    case _ =>
  }

  lemma InsertRow(s: State, call: nat, now: int, reply: Reply, e: nat)
    requires call in s.calls && s.calls[call].Checking? && WellFormed(s.w.db) && RowsOk(s.w.db)
    requires e in DoInsert(s, call, now, reply).w.db.events
    ensures var db' := DoInsert(s, call, now, reply).w.db;
      if e in s.w.db.events then db'.events[e] == s.w.db.events[e]
      else Consistent(db'.events[e]) && db'.events[e].total == |JobsOf(db', e)|
  {
    hide JobsOf, JobIds, Elements, CanCreate, OnlyCall;
    var c := s.calls[call];
    if CanCreate(s.w.db, c.info, c.insts) { CreatedJobs(s.w.db, c.info, c.insts, now); }
  }

  lemma ResetRows(s: State, call: nat, ev: nat, jobs: seq<nat>, reply: Reply)
    requires call !in s.calls
    ensures DoReset(s, call, ev, jobs, reply).w.db.events == s.w.db.events
  {
    hide Elements, OnlyCall;
  }

  lemma StatusRow(s: State, call: nat, reply: Reply, e: nat)
    requires call in s.calls && s.calls[call].NeedStatus? && RowsOk(s.w.db)
    requires e in DoWriteStatus(s, call, reply).w.db.events
    ensures var db' := DoWriteStatus(s, call, reply).w.db;
      e in s.w.db.events && Consistent(db'.events[e]) && db'.events[e].total == s.w.db.events[e].total
  {
    hide Elements, OnlyCall, JobsOf, DoWriteStatus;
  }

  lemma RowsStep(su: Setup, s: State, a: Action)
    requires Enabled(su, s, a) && References(s) && RowsOk(s.w.db) && ReadsOk(s.w.db, s.cons)
    ensures RowsOk(Apply(su, s, a).w.db)
  {
    hide WellFormed, CallsOk, MessagesOk, ConsumersOk, CanCall, DoCall, CanDelete, Step, DoWork, DoSettle, Consistent;
    match a
    case Api(call, step) => RowsCall(su, s, call, step);
    case Work(i, io) =>
      assert ReadOk(s.w.db, s.cons[i]);
      RowsWork(s.w, s.cons[i].d.body.job, s.cons[i].pc, io, su.valid);
    case AddInstance(_) => assert forall e :: JobsOf(Apply(su, s, a).w.db, e) == JobsOf(s.w.db, e);
    case RemoveInstance(_, _) => assert forall e :: JobsOf(Apply(su, s, a).w.db, e) == JobsOf(s.w.db, e);
    case _ =>
  }

  // ---------- which steps touch event rows ----------

  /** What a handler step does to the event rows. */
  lemma WorkEvents(w: World, job: nat, pc: Pc, io: Io, valid: Collector.Validator)
    requires Fits(pc, io)
    ensures var db' := Step(w, job, pc, io, valid).0.db;
      if WritesStatus(pc, io) then
        db'.jobs == w.db.jobs &&
        if pc.MarkEvent? then db'.events == WriteEventStatus(w.db, pc.ctx.ev, EventRunning).events
        else if pc.Roll? then
          db'.events == WriteRollup(w.db, pc.ctx.ev, RollupStatus(pc.verified, pc.failed, pc.total, pc.pending),
                                    pc.verified, pc.failed, pc.total).events
        else db'.events == RollupAtOnce(w.db, pc.ctx.ev).events
      else db'.events == w.db.events
  {
    hide DoConnect, DoExecute, JobsIn, JobsOf, PendingJobs, WriteRollup, WriteEventStatus, RollupAtOnce, RollupStatus;
  }

  lemma EventKeys(w: World, job: nat, pc: Pc, io: Io, valid: Collector.Validator)
    requires Fits(pc, io)
    ensures Step(w, job, pc, io, valid).0.db.events.Keys == w.db.events.Keys
  {
    hide Step, JobsOf, JobsIn, PendingJobs, RollupStatus;
    WorkEvents(w, job, pc, io, valid);
  }

  lemma InsertEvents(s: State, call: nat, now: int, reply: Reply, e: nat)
    requires call in s.calls && s.calls[call].Checking? && WellFormed(s.w.db)
    requires e in DoInsert(s, call, now, reply).w.db.events
    ensures var db' := DoInsert(s, call, now, reply).w.db;
      if e in s.w.db.events then e != s.w.db.next && db'.events[e] == s.w.db.events[e]
      else e == s.w.db.next && reply.Effective() && CanCreate(s.w.db, s.calls[call].info, s.calls[call].insts)
  {
    hide CanCreate, JobIds, Elements, OnlyCall;
  }

  lemma StatusKeepsEvents(s: State, call: nat, reply: Reply)
    requires call in s.calls && s.calls[call].NeedStatus?
    ensures DoWriteStatus(s, call, reply).w.db.events.Keys == s.w.db.events.Keys
  {
    hide Elements, OnlyCall;
  }

  lemma NewEvent(su: Setup, s: State, call: nat, step: ApiStep, e: nat)
    requires CanCall(su, s, call, step) && WellFormed(s.w.db)
    requires e in DoCall(su, s, call, step).w.db.events && e !in s.w.db.events
    ensures step.Insert? && e == s.w.db.next && step.reply.Effective()
            && CanCreate(s.w.db, s.calls[call].info, s.calls[call].insts)
  {
    hide WellFormed, DoInsert, DoReset, DoPublish, DoWriteStatus, DoReadBack, ListsFailed, ValidInput, OnlyCall;
    hide CanCreate;
    match step
    case Insert(now, reply) => InsertEvents(s, call, now, reply, e);
    case Reset(ev, jobs, reply) => ResetRows(s, call, ev, jobs, reply);
    case ResetLate(ev, jobs, reply) => ResetRows(s, call, ev, jobs, reply);
    case WriteStatus(reply) => StatusKeepsEvents(s, call, reply);
    case _ =>
  }

  // ---------- over whole runs ----------

  ghost predicate Structured(s: State) {
    References(s) && TagsOk(s) && RowsOk(s.w.db) && ReadsOk(s.w.db, s.cons)
  }

  lemma StructuredStep(su: Setup, s: State, a: Action)
    requires Enabled(su, s, a) && Structured(s)
    ensures Structured(Apply(su, s, a)) && Keeps(s.w.db, Apply(su, s, a).w.db)
    ensures |Apply(su, s, a).cons| == |s.cons|
  {
    hide Apply, Enabled, TagsOk, RowsOk, ReadsOk, Keeps;
    DbStep(su, s, a);
    ReferencesStep(su, s, a);
    TagsStep(su, s, a);
    RowsStep(su, s, a);
    ReadsStep(su, s, a);
  }

  /** Whatever fails and however rollups interleave: every reachable event row has as many jobs as it
      says, counters that fit in that number, and a terminal status its own counters justify. */
  lemma {:induction false} ReachableStructured(su: Setup, run: seq<Action>)
    requires Legal(su, run)
    ensures Structured(After(su, run)) && |After(su, run).cons| == su.consumers
  {
    hide Apply, Enabled;
    if run != [] {
      var before, a := run[..|run| - 1], run[|run| - 1];
      ReachableStructured(su, before);
      StructuredStep(su, After(su, before), a);
    }
  }

  /** A handler past its loads, in every reachable state: it works on its job's event and instance, with the
      event's task, and with the event's configuration exactly for the two tasks that need one. */
  lemma HandlerHolds(su: Setup, run: seq<Action>, i: nat)
    requires Legal(su, run) && i < |After(su, run).cons|
    requires After(su, run).cons[i].Busy? && After(su, run).cons[i].pc.PastLoads()
    ensures var s := After(su, run);
      var job, ctx := s.cons[i].d.body.job, s.cons[i].pc.ctx;
      && job in s.w.db.jobs && ctx.ev == s.w.db.jobs[job].event && ctx.inst == s.w.db.jobs[job].inst
      && ctx.ev in s.w.db.events && ctx.inst in s.w.db.events[ctx.ev].targets
      && ctx.task == s.w.db.events[ctx.ev].info.task
      && ctx.config == (if ctx.task == DeployConfig || ctx.task == ValidateConfig
                        then s.w.db.events[ctx.ev].info.config else None)
  {
    hide After, Legal, TagsOk, RowsOk, ReadsOk, CallsOk, MessagesOk;
    ReachableStructured(su, run);
    var s := After(su, run);
    assert ConsumerOk(s.w.db, s.cons[i]);
    assert Linked(s.w.db, s.w.db.jobs[s.cons[i].d.body.job]);
  }
}
