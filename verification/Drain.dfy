/** Draining ends: without new API calls, every run of the system is bounded by a measure of its state and
    the number of crashes. */
module Drain {
  import opened Types
  import opened Handler
  import opened Machine
  import opened Structure
  import opened Conservation
  import Agreement
  import Collector
  import HostKey
  import Sql
  import Stuck
  import Tokens
  import Retry
  import OneToken

  // ---------- sums ----------

  ghost function Sum(m: map<nat, nat>): nat
    decreases |m|
  {
    if m == map[] then 0
    else
      var k :| k in m;
      m[k] + Sum(m - {k})
  }

  lemma {:induction false} SumRemove(m: map<nat, nat>, k: nat)
    requires k in m
    ensures Sum(m) == m[k] + Sum(m - {k})
    decreases |m|
  {
    var c :| c in m && Sum(m) == m[c] + Sum(m - {c});
    if c != k {
      SumRemove(m - {c}, k);
      SumRemove(m - {k}, c);
      assert m - {c} - {k} == m - {k} - {c};
    }
  }

  lemma SumSet(m: map<nat, nat>, k: nat, v: nat)
    ensures Sum(m[k := v]) == v + Sum(m - {k})
    ensures k !in m ==> Sum(m[k := v]) == v + Sum(m)
  {
    SumRemove(m[k := v], k);
    assert m[k := v] - {k} == m - {k};
    if k !in m { assert m - {k} == m; }
  }

  // ---------- the measure ----------

  const ATTEMPT := 20
  const CRASH_COST := 60

  /** Attempts left to a message, the one under way not counted. */
  function Left(d: Delivery): nat {
    if 0 <= Retry.Count(d.headers) <= 2 then 2 - Retry.Count(d.headers) else 0
  }

  function MessageWeight(d: Delivery): nat { (Left(d) + 1) * ATTEMPT }

  function ConsumerWeight(c: Consumer): nat {
    match c
    case Idle => 0
    case Busy(_, d, pc) => Left(d) * ATTEMPT + 1 + Rank(pc)
    case Republished(_, _) => 1
    case RepublishFailed(_, _, _) => 1
  }

  function CallWeight(c: Call): nat {
    match c
    case Checking(_, insts, k) => (if k < |insts| then |insts| - k else 0) + |insts| * 62 + 6
    case NeedStatus(_, jobs, _, _, _) => |jobs| * 62 + 5
    case NeedEvent(_, jobs) => |jobs| * 62 + 4
    case Publishing(_, jobs, _, pos) => (if pos < |jobs| then |jobs| - pos else 0) * 62 + 3
  }

  function ReadyWeights(s: State): map<nat, nat> { map t | t in s.ready :: MessageWeight(s.ready[t]) }
  function ConsumerWeights(s: State): map<nat, nat> { map i: nat | i < |s.cons| :: ConsumerWeight(s.cons[i]) }
  function CallWeights(s: State): map<nat, nat> { map c | c in s.calls :: CallWeight(s.calls[c]) }

  /** Everything the system still has to do, in steps. */
  ghost function Work(s: State): nat {
    Sum(ReadyWeights(s)) + Sum(ConsumerWeights(s)) + Sum(CallWeights(s))
  }

  /** What a fault may add to the work: a crash gives a message back, a consumer that quits just takes a step. */
  function Cost(a: Action): nat {
    if a.Settle? && a.end.Crash? then CRASH_COST else if a.Quit? then 1 else 0
  }

  /** Not a new API call. */
  predicate Draining(a: Action) {
    !a.AddInstance? && !a.RemoveInstance? && !(a.Api? && (a.step.StartCreate? || a.step.Reset? || a.step.ResetLate?))
  }

  // ---------- every draining step uses up work ----------

  lemma DrainWork(su: Setup, s: State, i: nat, io: Io)
    requires i < |s.cons| && s.cons[i].Busy? && Fits(s.cons[i].pc, io)
    ensures Work(DoWork(su, s, i, io)) < Work(s)
  {
    hide Step, DoWork;
    var s' := DoWork(su, s, i, io);
    RankFalls(s.w, s.cons[i].d.body.job, s.cons[i].pc, io, su.valid);
    ConsumerSwap(s, s', i);
    assert ReadyWeights(s') == ReadyWeights(s) && CallWeights(s') == CallWeights(s);
  }

  lemma ConsumerSwap(s: State, s': State, i: nat)
    requires i < |s.cons| && |s'.cons| == |s.cons| && s'.cons == s.cons[i := s'.cons[i]]
    ensures Sum(ConsumerWeights(s')) + ConsumerWeight(s.cons[i]) == Sum(ConsumerWeights(s)) + ConsumerWeight(s'.cons[i])
  {
    hide ConsumerWeight;
    SumRemove(ConsumerWeights(s), i);
    SumRemove(ConsumerWeights(s'), i);
    assert ConsumerWeights(s) - {i} == ConsumerWeights(s') - {i};
  }

  lemma ReadyPut(s: State, s': State, t: nat, d: Delivery)
    requires s'.ready == s.ready[t := d] && t !in s.ready
    ensures Sum(ReadyWeights(s')) == Sum(ReadyWeights(s)) + MessageWeight(d)
  {
    hide MessageWeight;
    assert ReadyWeights(s') == ReadyWeights(s)[t := MessageWeight(d)];
    SumSet(ReadyWeights(s), t, MessageWeight(d));
  }

  lemma DrainDeliver(s: State, i: nat, tag: nat)
    requires i < |s.cons| && s.cons[i].Idle? && tag in s.ready
    ensures Work(DoDeliver(s, i, tag)) < Work(s)
  {
    var s' := DoDeliver(s, i, tag);
    ConsumerSwap(s, s', i);
    SumRemove(ReadyWeights(s), tag);
    assert ReadyWeights(s') == ReadyWeights(s) - {tag};
    assert CallWeights(s') == CallWeights(s);
  }

  lemma DrainSettle(s: State, i: nat, end: SettleStep)
    requires i < |s.cons| && CanSettle(s.cons[i], end) && TagsOk(s)
    requires 0 <= Retry.Count(s.cons[i].d.headers) < Retry.MAX_ATTEMPTS
    ensures Work(DoSettle(s, i, end)) < Work(s) + (if end.Crash? then CRASH_COST else 0)
  {
    hide TagsOk, Retry.Count, Retry.Next, Retry.Exhausted, ConsumerWeight, MessageWeight;
    var c, s' := s.cons[i], DoSettle(s, i, end);
    FreePlaces(s, i);
    FreeTagsHere(s, i);
    ConsumerSwap(s, s', i);
    SettleWeights(s, i, end);
    assert CallWeights(s') == CallWeights(s);
    if end.Crash? {
      ReadyPut(s, s', c.tag, c.d);
    } else if end.Republish? && end.reply.Effective() {
      ReadyPut(s, s', s.nextTag, c.d.(headers := Retry.Next(c.d.headers)));
    } else {
      assert ReadyWeights(s') == ReadyWeights(s);
    }
  }

  lemma FreeTagsHere(s: State, i: nat)
    requires TagsOk(s) && i < |s.cons| && !s.cons[i].Idle?
    ensures s.nextTag !in s.ready && s.cons[i].tag !in s.ready
  {
  }

  lemma SettleWeights(s: State, i: nat, end: SettleStep)
    requires i < |s.cons| && CanSettle(s.cons[i], end)
    requires 0 <= Retry.Count(s.cons[i].d.headers) < Retry.MAX_ATTEMPTS
    ensures var c, c' := s.cons[i], DoSettle(s, i, end).cons[i];
      && (end.Crash? ==> ConsumerWeight(c') + MessageWeight(c.d) < ConsumerWeight(c) + CRASH_COST)
      && (!end.Crash? ==> ConsumerWeight(c') < ConsumerWeight(c))
      && (end.Republish? ==>
            ConsumerWeight(c') + MessageWeight(c.d.(headers := Retry.Next(c.d.headers))) < ConsumerWeight(c))
  {
    hide OnlyConsumer;
    if end.Republish? { Retry.Next32(s.cons[i].d.headers); }
  }

  lemma DrainCall(su: Setup, s: State, call: nat, step: ApiStep)
    requires CanCall(su, s, call, step) && Draining(Api(call, step)) && TagsOk(s)
    ensures Work(DoCall(su, s, call, step)) < Work(s)
  {
    hide CanCall, DoCall, TagsOk, CallWeight, MessageWeight;
    var s' := DoCall(su, s, call, step);
    CallFalls(su, s, call, step);
    assert ConsumerWeights(s') == ConsumerWeights(s);
    assert CallWeights(s) - {call} == CallWeights(s') - {call};
    SumRemove(CallWeights(s), call);
    if call in s'.calls {
      SumRemove(CallWeights(s'), call);
    } else {
      assert CallWeights(s') - {call} == CallWeights(s');
    }
    if s'.ready == s.ready {
      assert ReadyWeights(s') == ReadyWeights(s);
    } else {
      PublishedReady(su, s, call, step);
      ReadyPut(s, s', s.nextTag, s'.ready[s.nextTag]);
    }
  }

  lemma PublishedReady(su: Setup, s: State, call: nat, step: ApiStep)
    requires CanCall(su, s, call, step) && TagsOk(s) && DoCall(su, s, call, step).ready != s.ready
    ensures var s' := DoCall(su, s, call, step);
      && step.Publish? && s.nextTag !in s.ready && s.nextTag in s'.ready
      && s'.ready == s.ready[s.nextTag := s'.ready[s.nextTag]] && MessageWeight(s'.ready[s.nextTag]) == 60
  {
    hide DoInsert, DoReset, DoWriteStatus, DoReadBack, ListsFailed, ValidInput, MessageFor, Elements, OnlyCall;
  }

  lemma CallFalls(su: Setup, s: State, call: nat, step: ApiStep)
    requires CanCall(su, s, call, step) && Draining(Api(call, step))
    ensures call in s.calls
    ensures var s' := DoCall(su, s, call, step);
      (if call in s'.calls then CallWeight(s'.calls[call]) else 0) + (if step.Publish? then 60 else 0)
        < CallWeight(s.calls[call])
  {
    hide Sql.CreateEvent, Sql.CanCreate, Sql.WriteEventStatus, ListsFailed, ValidInput, MessageFor, Elements, OnlyCall;
  }

  lemma DrainStep(su: Setup, s: State, a: Action)
    requires Enabled(su, s, a) && Draining(a) && TagsOk(s) && Conserved(s)
    ensures Work(Apply(su, s, a)) < Work(s) + Cost(a)
  {
    hide CanCall, DoCall, DoWork, DoSettle, DoDeliver, Step, TagsOk, CanSettle, Work, Message, HasCopy;
    match a
    case Api(call, step) => DrainCall(su, s, call, step);
    case Work(i, io) => DrainWork(su, s, i, io);
    case Deliver(i, tag) => DrainDeliver(s, i, tag);
    case Settle(i, end) =>
      SettledIsBusy(s, i, end);
      assert Genuine(s.h.published, Message(s, Held(i)).value);
      DrainSettle(s, i, end);
    case Quit(i) => QuitKeepsWork(su, s, i);
  }

  lemma QuitKeepsWork(su: Setup, s: State, i: nat)
    requires Enabled(su, s, Quit(i))
    ensures Work(Apply(su, s, Quit(i))) == Work(s)
  {
    hide Sum, MessageWeight, ConsumerWeight, CallWeight;
    var s' := Apply(su, s, Quit(i));
    assert ReadyWeights(s') == ReadyWeights(s) && ConsumerWeights(s') == ConsumerWeights(s);
    assert CallWeights(s') == CallWeights(s);
  }

  lemma SettledIsBusy(s: State, i: nat, end: SettleStep)
    requires i < |s.cons| && CanSettle(s.cons[i], end)
    ensures Message(s, Held(i)) == Some(s.cons[i].d)
  {
  }

  // ---------- over whole runs ----------

  function Costs(run: seq<Action>): nat {
    if run == [] then 0 else Costs(run[..|run| - 1]) + Cost(run[|run| - 1])
  }

  /** From any reachable state, whatever fails, a run without new API calls is at most as long as the work
      there is plus 60 steps for each crash and one for each consumer that quits. */
  lemma {:induction false} DrainingIsFinite(su: Setup, run: seq<Action>, k: nat)
    requires Legal(su, run) && k <= |run|
    requires forall m | k <= m < |run| :: Draining(run[m])
    ensures Legal(su, run[..k])
    ensures |run| - k + Work(After(su, run)) <= Work(After(su, run[..k])) + Costs(run[k..])
  {
    hide Enabled, Allowed, Apply, Work, Conserved, References, TagsOk, RowsOk, ReadsOk, Draining;
    OneToken.LegalPrefix(su, run, k);
    if k == |run| {
      assert run[..k] == run;
    } else {
      var last := |run| - 1;
      var before, a := run[..last], run[last];
      DrainingIsFinite(su, before, k);
      assert before[..k] == run[..k];
      assert run[k..][..|run[k..]| - 1] == before[k..] && run[k..][|run[k..]| - 1] == a;
      ReachableStructured(su, before);
      MessagesAreConserved(su, before);
      DrainStep(su, After(su, before), a);
    }
  }

  // ---------- and never blocks before all is done ----------

  /** No call is in flight, nothing is queued and every consumer is idle. */
  ghost predicate Still(s: State) {
    s.ready == map[] && s.calls == map[] && forall i | 0 <= i < |s.cons| :: s.cons[i].Idle?
  }

  /** A step that gets work done: no new API call and no crash. */
  predicate Progress(a: Action) { Draining(a) && !Crashing(a) }

  /** A consumer that still takes deliveries. */
  predicate Serving(s: State, i: nat) { i < |s.cons| && i !in s.gone }

  lemma NextOfCall(su: Setup, s: State, call: nat) returns (a: Action)
    requires call in s.calls
    ensures Enabled(su, s, a) && Allowed(su, s, a) && Progress(a)
  {
    var c := s.calls[call];
    a := Api(call, match c
         case Checking(_, insts, k) => if k < |insts| then CheckOwner(Confirmed) else Insert(0, Confirmed)
         case NeedStatus(_, _, _, _, _) => WriteStatus(Confirmed)
         case NeedEvent(_, _) => ReadBack(Confirmed)
         case Publishing(_, jobs, _, pos) => if pos < |jobs| then Publish(Confirmed) else Finish);
  }

  lemma NextOfConsumer(su: Setup, s: State, i: nat) returns (a: Action)
    requires i < |s.cons| && !s.cons[i].Idle?
    ensures Enabled(su, s, a) && Allowed(su, s, a) && Progress(a)
  {
    var c := s.cons[i];
    match c
    case Republished(_, _) => a := Settle(i, AckOld);
    case RepublishFailed(_, _, _) => a := Settle(i, DeadLetter);
    case Busy(_, d, pc) =>
      match pc
      case Returned(err, _) =>
        a := Settle(i, if !err then Ack else if Retry.Exhausted(d.headers) then DeadLetter else Republish(Confirmed));
      case Prepare(_) => a := Action.Work(i, Secrets(true));
      case Connect(_) => a := Action.Work(i, Ssh(HostKey.Unreachable));
      case Execute(_) => a := Action.Work(i, Script(HostKey.Unreachable, Collector.Luck(0, true, false, 1), true));
      case Count(_) => a := Action.Work(i, if su.torn then Query(Confirmed) else AtOnce);
      case _ => a := Action.Work(i, Query(Confirmed));
  }

  /** While one consumer still serves, some step that gets work done is possible until all is still. */
  lemma NeverBlocked(su: Setup, s: State, left: nat) returns (a: Action)
    requires Serving(s, left) && !Still(s)
    ensures Enabled(su, s, a) && Allowed(su, s, a) && Progress(a)
  {
    hide Enabled, Allowed, Progress;
    if i :| 0 <= i < |s.cons| && !s.cons[i].Idle? {
      a := NextOfConsumer(su, s, i);
    } else if s.calls != map[] {
      var call :| call in s.calls;
      a := NextOfCall(su, s, call);
    } else {
      var tag :| tag in s.ready;
      a := Deliver(left, tag);
      DeliverEnabled(su, s, left, tag);
    }
  }

  lemma DeliverEnabled(su: Setup, s: State, i: nat, tag: nat)
    requires Serving(s, i) && s.cons[i].Idle? && tag in s.ready
    ensures Enabled(su, s, Deliver(i, tag)) && Allowed(su, s, Deliver(i, tag)) && Progress(Deliver(i, tag))
  {
  }

  /** Nothing that gets work done is possible. */
  ghost predicate Stopped(su: Setup, s: State) {
    forall a :: !(Enabled(su, s, a) && Allowed(su, s, a) && Progress(a))
  }

  /** Where everything stops, either all is still or every consumer has quit and only the queue is left. */
  lemma StoppedExactly(su: Setup, s: State)
    ensures Stopped(su, s) <==>
            Still(s) || (s.calls == map[] && (forall i | 0 <= i < |s.cons| :: s.cons[i].Idle? && i in s.gone))
  {
    if Stopped(su, s) {
      hide Enabled, Allowed, Progress;
      if i: nat :| Serving(s, i) && !Still(s) {
        var a := NeverBlocked(su, s, i);
      }
      if i: nat :| i < |s.cons| && !s.cons[i].Idle? { var a := NextOfConsumer(su, s, i); }
      if s.calls != map[] {
        var call :| call in s.calls;
        var a := NextOfCall(su, s, call);
      }
      forall i | 0 <= i < |s.cons| && !Still(s) ensures i in s.gone { assert !Serving(s, i); }
    } else {
      hide Allowed;
      var a :| Enabled(su, s, a) && Allowed(su, s, a) && Progress(a);
    }
  }

  /** Where everything stops although a consumer is left, every job still QUEUED or RUNNING is one whose
      message was dead-lettered or whose API call reported an error. */
  lemma DrainedJobs(su: Setup, run: seq<Action>, left: nat, j: nat)
    requires Legal(su, run) && Stopped(su, After(su, run)) && Serving(After(su, run), left)
    requires j in After(su, run).w.db.jobs && After(su, run).w.db.jobs[j].status.Pending()
    ensures var s := After(su, run);
      Still(s) && ((exists t | t in s.dlq :: s.dlq[t].body.job == j) || j in s.h.abandoned)
  {
    hide After, Legal, Stopped;
    var s := After(su, run);
    StoppedExactly(su, s);
    Stuck.NoSilentlyStuckJob(su, run);
    assert Stuck.Accounted(s, j);
    forall loc ensures Tokens.At(s, loc) == None { StillIsEmpty(s, loc); }
  }

  /** Fault-free draining ends settled: a run that nothing but a new call could continue has every job
      VERIFIED or FAILED and every event row in agreement with its jobs. */
  lemma DrainedRunsSettle(su: Setup, run: seq<Action>)
    requires su.FaultFree() && Agreement.RollupsInTurn(su) && su.consumers > 0
    requires Legal(su, run) && Stopped(su, After(su, run))
    ensures Still(After(su, run)) && Agreement.Settled(After(su, run))
  {
    hide After, Legal, Structured, Stopped, Agreement.Settled;
    var s := After(su, run);
    ReachableStructured(su, run);
    NobodyGone(su, run);
    StoppedExactly(su, s);
    assert 0 !in s.gone && 0 < |s.cons|;
    Agreement.FinalAgreement(su, run);
  }

  /** Without crashes no consumer quits. */
  lemma {:induction false} NobodyGone(su: Setup, run: seq<Action>)
    requires !su.crashes && Legal(su, run)
    ensures After(su, run).gone == {}
  {
    hide Enabled, Allowed, Apply;
    if run == [] {
      NoneGoneYet(su);
    } else {
      NobodyGone(su, run[..|run| - 1]);
      GoneStays(su, After(su, run[..|run| - 1]), run[|run| - 1]);
    }
  }

  lemma NoneGoneYet(su: Setup)
    ensures Init(su).gone == {}
  {
  }

  lemma GoneStays(su: Setup, s: State, a: Action)
    requires Enabled(su, s, a) && Allowed(su, s, a) && !su.crashes
    ensures Apply(su, s, a).gone == s.gone
  {
    hide CanCall, DoCall, DoWork, DoDeliver, DoSettle, CanSettle, Sql.CanDelete, Step;
  }

  lemma StillIsEmpty(s: State, loc: Tokens.Loc)
    requires Still(s)
    ensures Tokens.At(s, loc) == None
  {
  }
}
