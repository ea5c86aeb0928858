/** What VERIFIED and COMPLETED say about the target nodes. */
module Truth {
  import opened Types
  import opened Sql
  import opened Handler
  import opened Machine
  import opened Structure
  import opened Tokens
  import opened OneToken
  import Collector
  import Coverage

  /** The log shows a successful connectivity check and, after it, a run of the task's script with this
      configuration that exited 0 and achieved what the task is for. */
  ghost predicate Proven(valid: Collector.Validator, log: seq<Fact>, job: nat, inst: nat, task: TaskType,
                         config: Option<string>)
  {
    exists a, b | 0 <= a < b < |log| ::
      && log[a] == Reached(job, inst)
      && log[b].Ran? && log[b] == Ran(job, inst, task, config, 0, log[b].node)
      && Collector.Achieved(task, config, valid, log[b].node)
  }

  lemma ProvenLater(valid: Collector.Validator, log: seq<Fact>, log': seq<Fact>, job: nat, inst: nat,
                    task: TaskType, config: Option<string>)
    requires log <= log' && Proven(valid, log, job, inst, task, config)
    ensures Proven(valid, log', job, inst, task, config)
  {
    hide Collector.Achieved;
    var a, b :| 0 <= a < b < |log| && log[a] == Reached(job, inst) && log[b].Ran?
                && log[b] == Ran(job, inst, task, config, 0, log[b].node)
                && Collector.Achieved(task, config, valid, log[b].node);
    assert log'[a] == log[a] && log'[b] == log[b];
  }

  /** A VERIFIED row has exit status 0 and proof in the log. */
  ghost predicate RowProven(valid: Collector.Validator, w: World, j: nat)
    requires j in w.db.jobs && w.db.jobs[j].event in w.db.events
  {
    var info := w.db.events[w.db.jobs[j].event].info;
    w.db.jobs[j].exit == Some(0) && Proven(valid, w.log, j, w.db.jobs[j].inst, info.task, ScriptConfig(info))
  }

  ghost predicate VerifiedProven(valid: Collector.Validator, w: World) {
    forall j | j in w.db.jobs && w.db.jobs[j].status.JobVerified? ::
      w.db.jobs[j].event in w.db.events && RowProven(valid, w, j)
  }

  /** A handler past its connectivity check has reached the node; one about to report VERIFIED has proof. */
  ghost predicate PcProven(valid: Collector.Validator, log: seq<Fact>, job: nat, pc: Pc) {
    && (pc.Execute? ==> Reached(job, pc.ctx.inst) in log)
    && (pc.Report? && pc.status.JobVerified? ==>
          pc.exit == 0 && Proven(valid, log, job, pc.ctx.inst, pc.ctx.task, pc.ctx.config))
  }

  ghost predicate HandlersProven(valid: Collector.Validator, log: seq<Fact>, cons: seq<Consumer>) {
    forall i | 0 <= i < |cons| && cons[i].Busy? :: PcProven(valid, log, cons[i].d.body.job, cons[i].pc)
  }

  ghost predicate Evident(valid: Collector.Validator, s: State) {
    VerifiedProven(valid, s.w) && HandlersProven(valid, s.w.log, s.cons)
  }

  lemma LogGrows(w: World, job: nat, pc: Pc, io: Io, valid: Collector.Validator)
    requires Fits(pc, io)
    ensures w.log <= Step(w, job, pc, io, valid).0.log
  {
    hide DoConnect, DoExecute, MarkJobRunning, WriteEventStatus, WriteJobResult, WriteRollup, RollupAtOnce;
  }

  lemma ExecuteProven(w: World, job: nat, ctx: Ctx, valid: Collector.Validator, io: Io)
    requires io.Script? && Reached(job, ctx.inst) in w.log
    ensures var (w', pc') := DoExecute(w, job, ctx, valid, io.dial, io.luck, io.lost);
      PcProven(valid, w'.log, job, pc')
  {
    hide Collector.RunTask, Collector.Achieved;
    var (w', pc') := DoExecute(w, job, ctx, valid, io.dial, io.luck, io.lost);
    if pc'.status.JobVerified? {
      var w1 := Trust(w, ctx, io.dial).0;
      Collector.ExitZeroMeans(NodeOf(w1.nodes, ctx.inst), ctx.task, ctx.config, valid, io.luck);
      var a :| 0 <= a < |w.log| && w.log[a] == Reached(job, ctx.inst);
      assert w'.log[a] == w1.log[a] == w.log[a];
      var b := |w'.log| - 1;
      assert w'.log[b].Ran?;
    }
  }

  lemma StepProven(w: World, job: nat, pc: Pc, io: Io, valid: Collector.Validator)
    requires Fits(pc, io) && PcProven(valid, w.log, job, pc)
    ensures var (w', pc') := Step(w, job, pc, io, valid); PcProven(valid, w'.log, job, pc')
  {
    hide DoConnect, DoExecute, MarkJobRunning, WriteEventStatus, WriteJobResult, WriteRollup, RollupAtOnce, Proven;
    if pc.Execute? { ExecuteProven(w, job, pc.ctx, valid, io); }
  }

  lemma PcProvenLater(valid: Collector.Validator, log: seq<Fact>, log': seq<Fact>, job: nat, pc: Pc)
    requires log <= log' && PcProven(valid, log, job, pc)
    ensures PcProven(valid, log', job, pc)
  {
    hide Proven;
    if pc.Report? && pc.status.JobVerified? {
      ProvenLater(valid, log, log', job, pc.ctx.inst, pc.ctx.task, pc.ctx.config);
    }
  }

  /** Proof survives whatever happens to other rows. */
  lemma VerifiedLater(valid: Collector.Validator, w: World, w': World)
    requires VerifiedProven(valid, w) && WellFormed(w.db) && Keeps(w.db, w'.db) && w.log <= w'.log
    requires forall j | j in w'.db.jobs && w'.db.jobs[j].status.JobVerified? ::
               (j in w.db.jobs && w'.db.jobs[j] == w.db.jobs[j])
               || (w'.db.jobs[j].event in w'.db.events && RowProven(valid, w', j))
    ensures VerifiedProven(valid, w')
  {
    hide Proven, WellFormed;
    forall j | j in w'.db.jobs && w'.db.jobs[j].status.JobVerified?
      ensures w'.db.jobs[j].event in w'.db.events && RowProven(valid, w', j)
    {
      if j in w.db.jobs && w'.db.jobs[j] == w.db.jobs[j] {
        var info := w.db.events[w.db.jobs[j].event].info;
        ProvenLater(valid, w.log, w'.log, j, w.db.jobs[j].inst, info.task, ScriptConfig(info));
      }
    }
  }

  lemma EvidentWork(su: Setup, s: State, i: nat, io: Io)
    requires i < |s.cons| && s.cons[i].Busy? && Fits(s.cons[i].pc, io)
    requires Evident(su.valid, s) && References(s)
    ensures Evident(su.valid, DoWork(su, s, i, io))
  {
    hide DoWork, Step, Proven, WellFormed, CallsOk, MessagesOk, PcProven, Keeps, VerifiedProven;
    var c, s' := s.cons[i], DoWork(su, s, i, io);
    LogGrows(s.w, c.d.body.job, c.pc, io, su.valid);
    StepKeeps(s.w, c.d.body.job, c.pc, io, su.valid);
    StepProven(s.w, c.d.body.job, c.pc, io, su.valid);
    forall k | 0 <= k < |s'.cons| && s'.cons[k].Busy?
      ensures PcProven(su.valid, s'.w.log, s'.cons[k].d.body.job, s'.cons[k].pc)
    {
      if k != i {
        assert s'.cons[k] == s.cons[k];
        PcProvenLater(su.valid, s.w.log, s'.w.log, s.cons[k].d.body.job, s.cons[k].pc);
      }
    }
    assert ConsumerOk(s.w.db, c) && PcProven(su.valid, s.w.log, c.d.body.job, c.pc);
    RowsAfterWork(s.w, c, io, su.valid);
    VerifiedLater(su.valid, s.w, s'.w);
  }

  lemma RowsAfterWork(w: World, c: Consumer, io: Io, valid: Collector.Validator)
    requires c.Busy? && Fits(c.pc, io) && WellFormed(w.db) && ConsumerOk(w.db, c)
    requires PcProven(valid, w.log, c.d.body.job, c.pc)
    ensures var w' := Step(w, c.d.body.job, c.pc, io, valid).0;
      forall j | j in w'.db.jobs && w'.db.jobs[j].status.JobVerified? ::
        (j in w.db.jobs && w'.db.jobs[j] == w.db.jobs[j])
        || (w'.db.jobs[j].event in w'.db.events && RowProven(valid, w', j))
  {
    hide Step, Proven, WellFormed, Keeps;
    var job := c.d.body.job;
    WorkJobs(w, job, c.pc, io, valid);
    RowsExist(w.db, c);
    if c.pc.Report? { ReportStep(w, job, c.pc, io, valid); }
  }

  lemma ReportStep(w: World, job: nat, pc: Pc, io: Io, valid: Collector.Validator)
    requires pc.Report? && Fits(pc, io)
    ensures var w' := Step(w, job, pc, io, valid).0; w'.log == w.log && w'.db.events == w.db.events
  {
  }

  lemma EvidentStep(su: Setup, s: State, a: Action)
    requires Enabled(su, s, a) && Evident(su.valid, s) && References(s)
    ensures Evident(su.valid, Apply(su, s, a))
  {
    hide CanCall, DoCall, DoWork, DoSettle, CanDelete, Step, WellFormed, CallsOk, MessagesOk, ConsumersOk, Proven;
    hide PcProven;
    hide Keeps, VerifiedProven;
    var s' := Apply(su, s, a);
    DbStep(su, s, a);
    match a
    case Work(i, io) => EvidentWork(su, s, i, io);
    case Deliver(i, tag) => FreshHandlerProven(su.valid, s.w.log, s'.cons[i]);
    case Settle(i, end) => SettleEnds(s, i, end);
    case Api(call, step) => EvidentCall(su, s, call, step);
    case _ => VerifiedLater(su.valid, s.w, s'.w);
  }

  lemma FreshHandlerProven(valid: Collector.Validator, log: seq<Fact>, c: Consumer)
    requires c.Busy? && c.pc.LoadJob?
    ensures PcProven(valid, log, c.d.body.job, c.pc)
  {
  }

  lemma EvidentCall(su: Setup, s: State, call: nat, step: ApiStep)
    requires CanCall(su, s, call, step) && Evident(su.valid, s) && References(s)
    ensures Evident(su.valid, DoCall(su, s, call, step))
  {
    hide DoCall, CanCall, WellFormed, CallsOk, MessagesOk, ConsumersOk, Proven, PcProven, Keeps, VerifiedProven;
    var s' := DoCall(su, s, call, step);
    CallKeeps(su, s, call, step);
    CallVerifiesNothing(su, s, call, step);
    VerifiedLater(su.valid, s.w, s'.w);
  }

  lemma CallVerifiesNothing(su: Setup, s: State, call: nat, step: ApiStep)
    requires CanCall(su, s, call, step) && WellFormed(s.w.db)
    ensures var jobs' := DoCall(su, s, call, step).w.db.jobs;
      forall j | j in jobs' && jobs'[j].status.JobVerified? :: j in s.w.db.jobs && jobs'[j] == s.w.db.jobs[j]
  {
    hide WellFormed, ListsFailed, ValidInput, DoInsert, DoReset, DoPublish, DoWriteStatus;
    match step
    case Insert(now, reply) => InsertJobs(s, call, now, reply);
    case Reset(ev, jobs, reply) =>
      if reply.Effective() {
        ResetJobs(s, call, ev, jobs, reply);
      } else {
        RefusedReset(s, call, ev, jobs);
      }
    case ResetLate(ev, jobs, reply) =>
      if reply.Effective() {
        ResetJobs(s, call, ev, jobs, reply);
      } else {
        RefusedReset(s, call, ev, jobs);
      }
    case WriteStatus(reply) => StatusKeepsJobs(s, call, reply);
    case _ =>
  }

  lemma RefusedReset(s: State, call: nat, ev: nat, jobs: seq<nat>)
    requires call !in s.calls
    ensures DoReset(s, call, ev, jobs, Refused) == s
  {
  }

  /** In every reachable state, whatever fails: a VERIFIED job exited 0 and its node was left as its task
      promises, right after a connectivity check by the same job. */
  lemma {:induction false} VerifiedIsProven(su: Setup, run: seq<Action>)
    requires Legal(su, run)
    ensures Evident(su.valid, After(su, run))
  {
    hide Enabled, Allowed, Apply, Structured, Evident;
    if run != [] {
      var before, a := run[..|run| - 1], run[|run| - 1];
      VerifiedIsProven(su, before);
      StructuredFacts(su, before);
      EvidentStep(su, After(su, before), a);
    } else {
      InitEvident(su);
    }
  }

  lemma StructuredFacts(su: Setup, run: seq<Action>)
    requires Legal(su, run)
    ensures References(After(su, run))
  {
    hide References, After, Legal, TagsOk, RowsOk, ReadsOk;
    ReachableStructured(su, run);
  }

  lemma InitEvident(su: Setup)
    ensures Evident(su.valid, Init(su))
  {
  }

  /** What that says, task by task: at `a` the job's check reached its node, and at `b` its script exited 0 and
      left the node as it should. */
  lemma VerifiedMeans(su: Setup, run: seq<Action>, j: nat) returns (a: nat, b: nat)
    requires Legal(su, run) && j in After(su, run).w.db.jobs && After(su, run).w.db.jobs[j].status == JobVerified
    ensures var w := After(su, run).w;
      var row := w.db.jobs[j];
      && row.exit == Some(0) && row.event in w.db.events && a < b < |w.log| && w.log[a] == Reached(j, row.inst)
      && w.log[b].Ran? && w.log[b].job == j && w.log[b].inst == row.inst && w.log[b].exit == 0
      && var info, n := w.db.events[row.event].info, w.log[b].node;
         && w.log[b].task == info.task
         && (info.task == DeployConfig ==>
               info.config.Some? && su.valid(info.config.value) && n.config == n.loaded == info.config && n.active)
         && (info.task == ValidateConfig ==> info.config.Some? && su.valid(info.config.value))
         && (info.task == RollbackConfig ==>
               n.backup.Some? && su.valid(n.backup.value) && n.config == n.loaded == n.backup && n.active)
         && (info.task == RestartCollector ==> n.config.Some? && n.loaded == n.config && n.active)
         && (info.task == StopCollector ==> !n.active)
         && (info.task == InstallAgent ==> n.binary && n.unit)
  {
    hide After, Legal;
    VerifiedIsProven(su, run);
    var w := After(su, run).w;
    var row := w.db.jobs[j];
    assert RowProven(su.valid, w, j);
    var info := w.db.events[row.event].info;
    a, b :| 0 <= a < b < |w.log| && w.log[a] == Reached(j, row.inst) && w.log[b].Ran?
            && w.log[b] == Ran(j, row.inst, info.task, ScriptConfig(info), 0, w.log[b].node)
            && Collector.Achieved(info.task, ScriptConfig(info), su.valid, w.log[b].node);
  }

  // ---------- COMPLETED ----------

  ghost predicate AllVerified(db: Db, ev: nat) {
    forall j | j in db.jobs && db.jobs[j].event == ev :: db.jobs[j].status.JobVerified?
  }

  /** COMPLETED rows and rollups that have counted all jobs as VERIFIED are right, and stay right. */
  ghost predicate Truthful(s: State) {
    && (forall e | e in s.w.db.events && s.w.db.events[e].status.EventCompleted? :: AllVerified(s.w.db, e))
    && (forall i | 0 <= i < |s.cons| && s.cons[i].Busy? && (s.cons[i].pc.CountPending? || s.cons[i].pc.Roll?)
                   && s.cons[i].pc.verified == s.cons[i].pc.total :: AllVerified(s.w.db, s.cons[i].pc.ctx.ev))
  }

  lemma AllVerifiedLater(db: Db, db': Db, ev: nat)
    requires Keeps(db, db') && StaysVerified(db, db') && ev in db.events && AllVerified(db, ev)
    ensures AllVerified(db', ev)
  {
  }

  lemma CountsAllVerified(db: Db, ev: nat)
    requires |JobsIn(db, ev, JobVerified)| == |JobsOf(db, ev)|
    ensures AllVerified(db, ev)
  {
    Counts(db, ev);
    forall j | j in db.jobs && db.jobs[j].event == ev ensures db.jobs[j].status.JobVerified? {
      assert j in JobsOf(db, ev);
    }
  }

  /** Which steps can leave an event COMPLETED, and what a rollup has read. */
  lemma CompletedBy(w: World, job: nat, pc: Pc, io: Io, valid: Collector.Validator, e: nat)
    requires Fits(pc, io)
    ensures var w' := Step(w, job, pc, io, valid).0;
      e in w'.db.events && w'.db.events[e].status.EventCompleted? ==>
        e in w.db.events
        && (w.db.events[e].status.EventCompleted?
            || (pc.Roll? && pc.ctx.ev == e && pc.verified == pc.total)
            || (pc.Count? && pc.ctx.ev == e && |JobsIn(w.db, e, JobVerified)| == |JobsOf(w.db, e)|))
  {
    hide DoConnect, DoExecute, JobsIn, JobsOf, PendingJobs;
  }

  lemma ReadBy(w: World, job: nat, pc: Pc, io: Io, valid: Collector.Validator)
    requires Fits(pc, io)
    ensures var (w', pc') := Step(w, job, pc, io, valid);
      && (pc'.CountPending? ==> pc.Count? && pc'.ctx == pc.ctx && w' == w
                                && pc'.verified == |JobsIn(w.db, pc.ctx.ev, JobVerified)|
                                && pc'.total == |JobsOf(w.db, pc.ctx.ev)|)
      && (pc'.Roll? ==> pc.CountPending? && pc'.ctx == pc.ctx && w' == w
                        && pc'.verified == pc.verified && pc'.failed == pc.failed && pc'.total == pc.total)
  {
    hide DoConnect, DoExecute, MarkJobRunning, WriteJobResult, WriteRollup, RollupAtOnce, JobsIn, JobsOf, PendingJobs;
  }

  lemma TruthfulWork(su: Setup, s: State, i: nat, io: Io, tok: map<nat, Loc>)
    requires i < |s.cons| && s.cons[i].Busy? && Fits(s.cons[i].pc, io)
    requires Truthful(s) && Placed(s, tok) && References(s)
    ensures Truthful(DoWork(su, s, i, io))
  {
    hide DoWork, Step, WellFormed, CallsOk, MessagesOk, Placed, Keeps, StaysVerified, AllVerified, JobsOf, JobsIn;
    var c, s' := s.cons[i], DoWork(su, s, i, io);
    VerifiedWork(su, s, i, io, tok);
    StepKeeps(s.w, c.d.body.job, c.pc, io, su.valid);
    assert ConsumerOk(s.w.db, c);
    if (c.pc.Count?) && |JobsIn(s.w.db, c.pc.ctx.ev, JobVerified)| == |JobsOf(s.w.db, c.pc.ctx.ev)| {
      CountsAllVerified(s.w.db, c.pc.ctx.ev);
    }
    forall e | e in s'.w.db.events && s'.w.db.events[e].status.EventCompleted? ensures AllVerified(s'.w.db, e) {
      CompletedBy(s.w, c.d.body.job, c.pc, io, su.valid, e);
      AllVerifiedLater(s.w.db, s'.w.db, e);
    }
    forall k | 0 <= k < |s'.cons| && s'.cons[k].Busy? && (s'.cons[k].pc.CountPending? || s'.cons[k].pc.Roll?)
               && s'.cons[k].pc.verified == s'.cons[k].pc.total
      ensures AllVerified(s'.w.db, s'.cons[k].pc.ctx.ev)
    {
      ReadBy(s.w, c.d.body.job, c.pc, io, su.valid);
      assert k != i ==> s'.cons[k] == s.cons[k];
      assert ConsumerOk(s.w.db, s.cons[k]);
      AllVerifiedLater(s.w.db, s'.w.db, s.cons[k].pc.ctx.ev);
    }
  }

  lemma TruthfulStep(su: Setup, s: State, a: Action, tok: map<nat, Loc>)
    requires su.FaultFree() && Enabled(su, s, a) && Allowed(su, s, a)
    requires Truthful(s) && Placed(s, tok) && Clean(s) && Structured(s)
    ensures Truthful(Apply(su, s, a))
  {
    hide CanCall, DoCall, DoWork, DoSettle, DoDeliver, CanDelete, Step, WellFormed, CallsOk, MessagesOk, Placed, Clean;
    hide TagsOk, RowsOk, ReadsOk, Keeps, StaysVerified, AllVerified, CanSettle;
    var s' := Apply(su, s, a);
    VerifiedStep(su, s, a, tok);
    DbStep(su, s, a);
    if a.Work? {
      TruthfulWork(su, s, a.i, a.io, tok);
    } else {
      forall e | e in s'.w.db.events && s'.w.db.events[e].status.EventCompleted? ensures AllVerified(s'.w.db, e) {
        CallsCompleteNothing(su, s, a, e);
        AllVerifiedLater(s.w.db, s'.w.db, e);
      }
      forall k | 0 <= k < |s'.cons| && s'.cons[k].Busy? && (s'.cons[k].pc.CountPending? || s'.cons[k].pc.Roll?)
                 && s'.cons[k].pc.verified == s'.cons[k].pc.total
        ensures AllVerified(s'.w.db, s'.cons[k].pc.ctx.ev)
      {
        OtherConsumersStay(su, s, a, k);
        assert ConsumerOk(s.w.db, s.cons[k]);
        AllVerifiedLater(s.w.db, s'.w.db, s.cons[k].pc.ctx.ev);
      }
    }
  }

  lemma CallsCompleteNothing(su: Setup, s: State, a: Action, e: nat)
    requires Enabled(su, s, a) && !a.Work?
    ensures var db' := Apply(su, s, a).w.db;
      e in db'.events && db'.events[e].status.EventCompleted? ==>
        e in s.w.db.events && s.w.db.events[e].status.EventCompleted?
  {
    hide CanDelete, CanSettle, DoSettle, DoWork, OnlyCall, ListsFailed, ValidInput, DoPublish, DoReset, DoInsert;
    hide DoWriteStatus;
    if a.Api? {
      match a.step
      case Reset(ev, jobs, reply) => ResetRows(s, a.call, ev, jobs, reply);
      case ResetLate(ev, jobs, reply) => ResetRows(s, a.call, ev, jobs, reply);
      case Insert(now, reply) => InsertedRowIsQueued(s, a.call, now, reply, e);
      case WriteStatus(reply) => WrittenRowIsRunning(s, a.call, reply, e);
      case _ =>
    }
  }

  lemma InsertedRowIsQueued(s: State, call: nat, now: int, reply: Reply, e: nat)
    requires call in s.calls && s.calls[call].Checking?
    ensures var db' := DoInsert(s, call, now, reply).w.db;
      e in db'.events ==> db'.events[e].status.EventQueued? || (e in s.w.db.events && db'.events[e] == s.w.db.events[e])
  {
    hide CanCreate, JobIds, Elements, OnlyCall;
  }

  lemma WrittenRowIsRunning(s: State, call: nat, reply: Reply, e: nat)
    requires call in s.calls && s.calls[call].NeedStatus?
    ensures var db' := DoWriteStatus(s, call, reply).w.db;
      e in db'.events ==>
        e in s.w.db.events && (db'.events[e].status.EventRunning? || db'.events[e] == s.w.db.events[e])
  {
    hide Elements, OnlyCall;
  }

  lemma OtherConsumersStay(su: Setup, s: State, a: Action, k: nat)
    requires Enabled(su, s, a) && !a.Work? && k < |Apply(su, s, a).cons|
    ensures k < |s.cons|
    ensures var c := Apply(su, s, a).cons[k]; c.Busy? && !c.pc.LoadJob? ==> c == s.cons[k]
  {
    hide CanCall, DoCall, CanDelete, CanSettle, DoSettle;
    if a.Settle? { SettleEnds(s, a.i, a.end); }
  }

  /** While an event is COMPLETED, in a run without faults but with torn rollups, any number of consumers
      and reruns: each of its jobs is VERIFIED, with proof of a successful run on its node. */
  lemma {:induction false} CompletedIsTruthful(su: Setup, run: seq<Action>)
    requires su.FaultFree() && Legal(su, run)
    ensures Truthful(After(su, run))
  {
    hide Enabled, Allowed, Apply, Structured, Truthful, Clean, Placed;
    if run != [] {
      var before, a := run[..|run| - 1], run[|run| - 1];
      CompletedIsTruthful(su, before);
      var tok := ReachableOrderly(su, before);
      TruthfulStep(su, After(su, before), a, tok);
    } else {
      InitTruthful(su);
    }
  }

  lemma InitTruthful(su: Setup)
    ensures Truthful(Init(su))
  {
  }

  /** All together: each target of a COMPLETED event has exactly one job, and that job is VERIFIED with proof
      that the target was reached and then served successfully with the event's configuration. */
  lemma CompletedEndToEnd(su: Setup, run: seq<Action>, e: nat, i: nat) returns (j: nat)
    requires su.FaultFree() && Legal(su, run)
    requires e in After(su, run).w.db.events && After(su, run).w.db.events[e].status.EventCompleted?
    requires i in After(su, run).w.db.events[e].targets
    ensures var w := After(su, run).w;
      var info := w.db.events[e].info;
      && Coverage.JobFor(w.db, j, e, i) && (forall k :: Coverage.JobFor(w.db, k, e, i) ==> k == j)
      && w.db.jobs[j].status.JobVerified?
      && Proven(su.valid, w.log, j, i, info.task, ScriptConfig(info))
  {
    hide After, Legal, Proven;
    var w := After(su, run).w;
    Coverage.ReachableCovered(su, run);
    assert Coverage.RowCovered(w.db, e);
    j :| Coverage.JobFor(w.db, j, e, i);
    CompletedIsTruthful(su, run);
    VerifiedIsProven(su, run);
    assert AllVerified(w.db, e);
    assert RowProven(su.valid, w, j);
  }

  /** While an event is COMPLETED, every one of its targets has been reached and served. */
  lemma EveryTargetServed(su: Setup, run: seq<Action>, e: nat)
    requires su.FaultFree() && Legal(su, run)
    requires e in After(su, run).w.db.events && After(su, run).w.db.events[e].status.EventCompleted?
    ensures var w := After(su, run).w;
      var info := w.db.events[e].info;
      forall i | i in w.db.events[e].targets :: exists j ::
        && Coverage.JobFor(w.db, j, e, i) && w.db.jobs[j].status.JobVerified?
        && Proven(su.valid, w.log, j, i, info.task, ScriptConfig(info))
  {
    hide After, Legal, Proven;
    var w := After(su, run).w;
    var info := w.db.events[e].info;
    forall i | i in w.db.events[e].targets
      ensures exists j :: Coverage.JobFor(w.db, j, e, i) && w.db.jobs[j].status.JobVerified?
                          && Proven(su.valid, w.log, j, i, info.task, ScriptConfig(info))
    {
      var j := CompletedEndToEnd(su, run, e, i);
    }
  }
}
