/** No job is stuck without a trace, whatever fails: refused and lost calls, crashes, redelivered duplicates,
    failed republishes, rollup errors after the result is written. */
module Stuck {
  import opened Types
  import opened Sql
  import opened Handler
  import opened Machine
  import opened Structure
  import opened Tokens
  import Collector
  import Retry

  /** Somebody can tell about the job: it awaits publication, is queued, is held by a consumer that has not
      written its result, is in the dead-letter queue, or its API call reported an error. */
  ghost predicate Accounted(s: State, j: nat) {
    || (exists loc :: At(s, loc) == Some(j))
    || (exists t | t in s.dlq :: s.dlq[t].body.job == j)
    || j in s.h.abandoned
  }

  ghost predicate AllAccounted(s: State) {
    forall j | j in s.w.db.jobs && s.w.db.jobs[j].status.Pending() :: Accounted(s, j)
  }

  /** A place that keeps its job, and dead letters and reported errors that stay. */
  lemma StillAccounted(s: State, s': State, j: nat)
    requires Accounted(s, j)
    requires forall t | t in s.dlq :: t in s'.dlq && s'.dlq[t] == s.dlq[t]
    requires j in s.h.abandoned ==> j in s'.h.abandoned
    requires forall loc | At(s, loc) == Some(j) :: At(s', loc) == Some(j) || Accounted(s', j)
    ensures Accounted(s', j)
  {
    hide At;
    if t :| t in s.dlq && s.dlq[t].body.job == j { assert t in s'.dlq && s'.dlq[t].body.job == j; }
  }

  // ---------- API steps ----------

  lemma CallKeepsTrace(su: Setup, s: State, call: nat, step: ApiStep)
    requires CanCall(su, s, call, step)
    ensures !step.Reset? ==> s.h.abandoned <= DoCall(su, s, call, step).h.abandoned
  {
    hide ListsFailed, ValidInput, OnlyCall, CreateEvent, ResetFailed, WriteEventStatus, CanCreate, JobIds, MessageFor;
  }

  lemma InsertAccounts(s: State, call: nat, now: int, reply: Reply, j: nat)
    requires call in s.calls && s.calls[call].Checking? && WellFormed(s.w.db) && AllAccounted(s)
    requires j in DoInsert(s, call, now, reply).w.db.jobs && DoInsert(s, call, now, reply).w.db.jobs[j].status.Pending()
    requires s.h.abandoned <= DoInsert(s, call, now, reply).h.abandoned
    ensures Accounted(DoInsert(s, call, now, reply), j)
  {
    hide At, DoInsert, CanCreate, WellFormed;
    var c, s' := s.calls[call], DoInsert(s, call, now, reply);
    InsertJobs(s, call, now, reply);
    if j in s.w.db.jobs {
      forall k { OwesNothing(s, call, k); }
      forall loc { AtInsert(s, call, now, reply, loc); }
      StillAccounted(s, s', j);
    } else {
      var k := j - s.w.db.next - 1;
      AtInsert(s, call, now, reply, InCall(call, k));
      if !reply.Confirmed? { LostInsert(s, call, now); assert j in Elements(JobIds(s.w.db, |c.insts|)); }
    }
  }

  lemma LostInsert(s: State, call: nat, now: int)
    requires call in s.calls && s.calls[call].Checking? && CanCreate(s.w.db, s.calls[call].info, s.calls[call].insts)
    ensures Elements(JobIds(s.w.db, |s.calls[call].insts|)) <= DoInsert(s, call, now, Lost).h.abandoned
  {
    hide CanCreate, CreateEvent, JobIds, Elements;
  }

  lemma ResetAccounts(s: State, call: nat, ev: nat, jobs: seq<nat>, reply: Reply, j: nat)
    requires call !in s.calls && ListsFailed(s.w.db, ev, jobs) && AllAccounted(s)
    requires j in DoReset(s, call, ev, jobs, reply).w.db.jobs
    requires DoReset(s, call, ev, jobs, reply).w.db.jobs[j].status.Pending()
    ensures Accounted(DoReset(s, call, ev, jobs, reply), j)
  {
    hide At, DoReset, ListsFailed;
    var s' := DoReset(s, call, ev, jobs, reply);
    if reply.Refused? { RefusedResetHere(s, call, ev, jobs); } else { ResetJobs(s, call, ev, jobs, reply); }
    if reply.Effective() && j in jobs {
      AtReset(s, call, ev, jobs, reply, InCall(call, IndexOf(jobs, j)));
      if !reply.Confirmed? { LostReset(s, call, ev, jobs); assert j in Elements(jobs); }
    } else {
      forall k { OwesNothing(s, call, k); }
      forall loc { AtReset(s, call, ev, jobs, reply, loc); }
      if j in s.h.abandoned { AbandonedAfterReset(s, call, ev, jobs, reply, j); }
      StillAccounted(s, s', j);
    }
  }

  lemma RefusedResetHere(s: State, call: nat, ev: nat, jobs: seq<nat>)
    requires call !in s.calls
    ensures DoReset(s, call, ev, jobs, Refused) == s
  {
  }

  /** A confirmed rerun takes charge of the jobs it lists, and of no other. */
  lemma AbandonedAfterReset(s: State, call: nat, ev: nat, jobs: seq<nat>, reply: Reply, j: nat)
    requires call !in s.calls && j in s.h.abandoned && (reply.Confirmed? ==> j !in jobs)
    ensures j in DoReset(s, call, ev, jobs, reply).h.abandoned
  {
    hide ResetFailed, OnlyCall;
  }

  /** A late error leaves the places as a failed reset does. */
  lemma AtResetLate(s: State, call: nat, ev: nat, jobs: seq<nat>, reply: Reply, loc: Loc)
    requires call !in s.calls && !reply.Confirmed?
    ensures At(DoResetLate(s, call, ev, jobs, reply), loc) == At(DoReset(s, call, ev, jobs, reply), loc)
  {
    hide ResetFailed, Elements;
  }

  lemma LateAccounts(s: State, call: nat, ev: nat, jobs: seq<nat>, reply: Reply, j: nat)
    requires call !in s.calls && !reply.Confirmed? && Accounted(DoReset(s, call, ev, jobs, reply), j)
    ensures Accounted(DoResetLate(s, call, ev, jobs, reply), j)
  {
    hide At, DoReset, OnlyCall;
    var t := DoReset(s, call, ev, jobs, reply);
    forall loc { AtResetLate(s, call, ev, jobs, reply, loc); }
    StillAccounted(t, DoResetLate(s, call, ev, jobs, reply), j);
  }

  lemma LostReset(s: State, call: nat, ev: nat, jobs: seq<nat>)
    requires call !in s.calls
    ensures Elements(jobs) <= DoReset(s, call, ev, jobs, Lost).h.abandoned
  {
    hide ResetFailed, Elements;
  }

  /** What a call still owed after its step, or has abandoned by ending in an error. */
  lemma EndedCall(su: Setup, s: State, call: nat, step: ApiStep, k: nat)
    requires CanCall(su, s, call, step) && (step.WriteStatus? || step.ReadBack? || step.Publish? || step.Die?)
    requires s.calls[call].Owes(k)
    ensures var s' := DoCall(su, s, call, step);
      && (call !in s'.calls ==> s.calls[call].jobs[k] in s'.h.abandoned)
      && (call in s'.calls && !(step.Publish? && k == s.calls[call].pos) ==>
            s'.calls[call].Owes(k) && s'.calls[call].jobs == s.calls[call].jobs)
      && (step.Publish? && k == s.calls[call].pos && call in s'.calls ==>
            s.nextTag in s'.ready && s'.ready[s.nextTag].body.job == s.calls[call].jobs[k])
  {
    hide WriteEventStatus, MessageFor, OnlyCall, ValidInput, ListsFailed;
    var c := s.calls[call];
    assert c.jobs[k] in Elements(c.jobs);
    if c.Publishing? { assert c.jobs[c.pos..][k - c.pos] in Elements(c.jobs[c.pos..]); }
  }

  lemma CallAccounts(su: Setup, s: State, call: nat, step: ApiStep, j: nat)
    requires CanCall(su, s, call, step) && References(s) && TagsOk(s) && AllAccounted(s)
    requires j in DoCall(su, s, call, step).w.db.jobs && DoCall(su, s, call, step).w.db.jobs[j].status.Pending()
    ensures Accounted(DoCall(su, s, call, step), j)
  {
    hide WellFormed, CallsOk, MessagesOk, ConsumersOk, TagsOk, ListsFailed, ValidInput, Accounted;
    hide DoInsert, DoReset, DoPublish, DoWriteStatus, DoReadBack;
    CallKeepsTrace(su, s, call, step);
    match step
    case Insert(now, reply) => InsertAccounts(s, call, now, reply, j);
    case Reset(ev, jobs, reply) => ResetAccounts(s, call, ev, jobs, reply, j);
    case ResetLate(ev, jobs, reply) =>
      ResetAccounts(s, call, ev, jobs, reply, j);
      LateAccounts(s, call, ev, jobs, reply, j);
    case WriteStatus(reply) =>
      StatusKeepsJobs(s, call, reply);
      OtherCallAccounts(su, s, call, step, j);
    case _ => OtherCallAccounts(su, s, call, step, j);
  }

  lemma OtherCallAccounts(su: Setup, s: State, call: nat, step: ApiStep, j: nat)
    requires CanCall(su, s, call, step) && TagsOk(s) && Accounted(s, j)
    requires !step.Insert? && !step.Reset? && !step.ResetLate? && s.h.abandoned <= DoCall(su, s, call, step).h.abandoned
    ensures Accounted(DoCall(su, s, call, step), j)
  {
    hide DoCall, ListsFailed, ValidInput, At;
    var s' := DoCall(su, s, call, step);
    forall loc | At(s, loc) == Some(j) ensures At(s', loc) == Some(j) || Accounted(s', j) {
      PlaceAfterCall(su, s, call, step, loc);
    }
    StillAccounted(s, s', j);
  }

  lemma PlaceAfterCall(su: Setup, s: State, call: nat, step: ApiStep, loc: Loc)
    requires CanCall(su, s, call, step) && TagsOk(s) && At(s, loc).Some?
    requires !step.Insert? && !step.Reset? && !step.ResetLate?
    ensures var s' := DoCall(su, s, call, step);
      At(s', loc) == At(s, loc) || Accounted(s', At(s, loc).value)
  {
    hide DoCall, ListsFailed, ValidInput, TagsOk;
    var s' := DoCall(su, s, call, step);
    if step.StartCreate? || step.CheckOwner? || step.Finish? {
      AtQuiet(su, s, call, step, loc);
    } else if loc.InCall? && loc.call == call {
      EndedCall(su, s, call, step, loc.k);
      if step.Publish? && loc.k == s.calls[call].pos && call in s'.calls {
        assert At(s', InReady(s.nextTag)) == At(s, loc);
      }
    } else if loc.InReady? {
      ReadyStays(su, s, call, step, loc.tag);
    }
  }

  lemma ReadyStays(su: Setup, s: State, call: nat, step: ApiStep, t: nat)
    requires CanCall(su, s, call, step) && TagsOk(s) && t in s.ready
    ensures t in DoCall(su, s, call, step).ready && DoCall(su, s, call, step).ready[t] == s.ready[t]
  {
    hide DoInsert, DoReset, DoWriteStatus, DoReadBack, ListsFailed, ValidInput, MessageFor, Elements, OnlyCall;
  }

  // ---------- worker steps ----------

  /** A handler stops holding its job only by writing the result. */
  lemma EarlyUntilWritten(w: World, job: nat, pc: Pc, io: Io, valid: Collector.Validator)
    requires Fits(pc, io)
    ensures var pc' := Step(w, job, pc, io, valid).1;
      && (pc.Early() ==> pc'.Early() || (pc.Report? && io.reply.Effective()))
      && (!pc.Early() ==> !pc'.Early())
  {
    hide DoConnect, DoExecute, MarkJobRunning, WriteEventStatus, WriteJobResult, WriteRollup, RollupAtOnce;
    hide JobsIn, JobsOf, PendingJobs;
  }

  lemma WorkAccounts(su: Setup, s: State, i: nat, io: Io, j: nat)
    requires i < |s.cons| && s.cons[i].Busy? && Fits(s.cons[i].pc, io)
    requires WellFormed(s.w.db) && ConsumerOk(s.w.db, s.cons[i]) && AllAccounted(s)
    requires j in DoWork(su, s, i, io).w.db.jobs && DoWork(su, s, i, io).w.db.jobs[j].status.Pending()
    ensures Accounted(DoWork(su, s, i, io), j)
  {
    hide DoWork, Step, At, WellFormed, PcOk;
    var c, s' := s.cons[i], DoWork(su, s, i, io);
    WorkJobs(s.w, c.d.body.job, c.pc, io, su.valid);
    EarlyUntilWritten(s.w, c.d.body.job, c.pc, io, su.valid);
    forall loc { AtWork(su, s, i, io, loc); }
    if c.pc.MarkJob? && j == c.d.body.job {
      assert At(s', InCons(i)) == Some(j);
    } else {
      forall loc | At(s, loc) == Some(j) ensures At(s', loc) == Some(j) {
        if loc == InCons(i) { HeldByConsumer(s, i, j); }
      }
      StillAccounted(s, s', j);
    }
  }

  lemma HeldByConsumer(s: State, i: nat, j: nat)
    requires i < |s.cons| && s.cons[i].Busy? && At(s, InCons(i)) == Some(j)
    ensures s.cons[i].pc.Early() && s.cons[i].d.body.job == j
  {
  }

  lemma SettleAccounts(s: State, i: nat, end: SettleStep, j: nat)
    requires i < |s.cons| && CanSettle(s.cons[i], end) && TagsOk(s) && Accounted(s, j)
    requires s.cons[i].Busy? ==> Sane(s.cons[i].pc)
    ensures Accounted(DoSettle(s, i, end), j)
  {
    hide DoSettle, At, TagsOk;
    var s' := DoSettle(s, i, end);
    SettleLetters(s, i, end);
    forall loc | At(s, loc) == Some(j) ensures At(s', loc) == Some(j) || Accounted(s', j) {
      AtSettle(s, i, end, loc);
      AtSettle(s, i, end, InReady(s.cons[i].tag));
      AtSettle(s, i, end, InReady(s.nextTag));
      FreeTags(s, i);
      if loc == InCons(i) { SettlingHolder(s, i, end, j); }
    }
    StillAccounted(s, s', j);
  }

  lemma FreeTags(s: State, i: nat)
    requires TagsOk(s) && i < |s.cons| && !s.cons[i].Idle?
    ensures At(s, InReady(s.nextTag)) == None && At(s, InReady(s.cons[i].tag)) == None
  {
  }

  lemma SettlingHolder(s: State, i: nat, end: SettleStep, j: nat)
    requires i < |s.cons| && CanSettle(s.cons[i], end) && At(s, InCons(i)) == Some(j)
    requires s.cons[i].Busy? ==> Sane(s.cons[i].pc)
    ensures !end.Ack? && !end.AckOld? && s.cons[i].d.body.job == j
    ensures end.DeadLetter? ==>
              s.cons[i].tag in DoSettle(s, i, end).dlq && DoSettle(s, i, end).dlq[s.cons[i].tag].body.job == j
  {
    hide OnlyConsumer, Retry.Exhausted;
  }

  lemma SettleLetters(s: State, i: nat, end: SettleStep)
    requires i < |s.cons| && CanSettle(s.cons[i], end) && TagsOk(s)
    ensures forall t | t in s.dlq :: t in DoSettle(s, i, end).dlq && DoSettle(s, i, end).dlq[t] == s.dlq[t]
  {
    hide OnlyConsumer, Retry.Exhausted, Retry.Next;
  }

  lemma DeliverAccounts(s: State, i: nat, tag: nat, j: nat)
    requires i < |s.cons| && s.cons[i].Idle? && tag in s.ready && Accounted(s, j)
    ensures Accounted(DoDeliver(s, i, tag), j)
  {
    assert At(s, InCons(i)) == None;
    assert At(s, InReady(tag)) == Some(s.ready[tag].body.job);
    var s' := DoDeliver(s, i, tag);
    DeliverHere(s, i, tag, j);
  }

  lemma DeliverHere(s: State, i: nat, tag: nat, j: nat)
    requires i < |s.cons| && tag in s.ready && Accounted(s, j)
    requires At(s, InCons(i)) == None && At(s, InReady(tag)) == Some(s.ready[tag].body.job)
    ensures Accounted(DoDeliver(s, i, tag), j)
  {
    hide At;
    var s' := DoDeliver(s, i, tag);
    AtDeliver(s, i, tag, InCons(i));
    forall loc { AtDeliver(s, i, tag, loc); }
    StillAccounted(s, s', j);
  }

  lemma AccountedStep(su: Setup, s: State, a: Action)
    requires Enabled(su, s, a) && References(s) && TagsOk(s) && AllAccounted(s)
    ensures AllAccounted(Apply(su, s, a))
  {
    hide CanCall, DoCall, DoWork, DoSettle, DoDeliver, CanDelete, Step, WellFormed, CallsOk, MessagesOk, TagsOk;
    hide Accounted;
    hide CanSettle, PcOk;
    var s' := Apply(su, s, a);
    forall j | j in s'.w.db.jobs && s'.w.db.jobs[j].status.Pending() ensures Accounted(s', j) {
      match a
      case Api(call, step) => CallAccounts(su, s, call, step, j);
      case Work(i, io) =>
        assert ConsumerOk(s.w.db, s.cons[i]);
        WorkAccounts(su, s, i, io, j);
      case Deliver(i, tag) => DeliverAccounts(s, i, tag, j);
      case Settle(i, end) =>
        assert ConsumerOk(s.w.db, s.cons[i]);
        SettleAccounts(s, i, end, j);
      case _ => EnvironmentAccounts(su, s, a, j);
    }
  }

  lemma EnvironmentAccounts(su: Setup, s: State, a: Action, j: nat)
    requires Enabled(su, s, a) && (a.AddInstance? || a.RemoveInstance? || a.Quit?) && Accounted(s, j)
    ensures Accounted(Apply(su, s, a), j)
  {
    hide CanDelete, At;
    forall loc { AtEnvironment(su, s, a, loc); }
    StillAccounted(s, Apply(su, s, a), j);
  }

  /** In every reachable state of every setup, each QUEUED or RUNNING job is accounted for. */
  lemma {:induction false} NoSilentlyStuckJob(su: Setup, run: seq<Action>)
    requires Legal(su, run)
    ensures AllAccounted(After(su, run))
  {
    hide Enabled, Allowed, Apply, AllAccounted, References, TagsOk, RowsOk, ReadsOk;
    if run == [] {
      NoJobsYet(su);
    } else {
      var before, a := run[..|run| - 1], run[|run| - 1];
      NoSilentlyStuckJob(su, before);
      ReachableStructured(su, before);
      AccountedStep(su, After(su, before), a);
    }
  }

  lemma NoJobsYet(su: Setup)
    ensures AllAccounted(Init(su))
  {
  }
}
