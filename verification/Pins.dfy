/** Host keys over whole runs, whatever fails: a pin is written once, by the first pin call, and a handler
    that loaded the instance after that trusts no other key on either of its connections. */
module Pins {
  import opened Types
  import opened Sql
  import opened Handler
  import opened Machine
  import opened Structure
  import Collector
  import HostKey
  import OneToken

  // ---------- the step that stores a pin ----------

  /** The handler has a connection to make, with what it remembers of the instance row. */
  predicate Dials(pc: Pc) { pc.Connect? || (pc.Execute? && !pc.ctx.task.UnknownTask?) }

  /** A handler of instance `inst` whose server presents a host key. */
  predicate KeyShown(s: State, a: Action, inst: nat) {
    && a.Work? && a.i < |s.cons| && s.cons[a.i].Busy? && Dials(s.cons[a.i].pc) && Fits(s.cons[a.i].pc, a.io)
    && a.io.dial.Presented? && s.cons[a.i].pc.ctx.inst == inst
  }

  /** The pin callback's UPDATE runs on this instance. */
  predicate PinCall(s: State, a: Action, inst: nat) {
    KeyShown(s, a, inst) && s.cons[a.i].pc.ctx.pin == None && a.io.dial.reply.Effective()
  }

  ghost predicate Pinned(s: State, inst: nat, key: string) {
    inst in s.w.db.instances && s.w.db.instances[inst].pin == Some(key)
  }

  ghost predicate Unpinned(s: State, inst: nat) {
    inst in s.w.db.instances && s.w.db.instances[inst].pin == None
  }

  lemma ConnectPin(db: Db, inst: nat, snapshot: Option<string>, dial: HostKey.Dial, i: nat)
    requires i in db.instances && db.instances[i].pin == None
    ensures var db' := HostKey.Connect(db, inst, snapshot, dial).0;
      i in db'.instances && db'.instances[i].pin ==
        if i == inst && snapshot == None && dial.Presented? && dial.reply.Effective() then Some(dial.key) else None
  {
  }

  /** A handler step pins an unpinned instance exactly when it is a pin call on it. */
  lemma StepPin(w: World, job: nat, pc: Pc, io: Io, valid: Collector.Validator, i: nat)
    requires Fits(pc, io) && i in w.db.instances && w.db.instances[i].pin == None
    ensures var db' := Step(w, job, pc, io, valid).0.db;
      i in db'.instances && db'.instances[i].pin ==
        if Dials(pc) && io.dial.Presented? && pc.ctx.inst == i && pc.ctx.pin == None && io.dial.reply.Effective()
        then Some(io.dial.key) else None
  {
    hide HostKey.Connect, MarkJobRunning, WriteEventStatus, WriteJobResult, WriteRollup, RollupAtOnce;
    hide Collector.RunTask;
    hide JobsIn, JobsOf, PendingJobs;
    if Dials(pc) { ConnectPin(w.db, pc.ctx.inst, pc.ctx.pin, io.dial, i); }
  }

  lemma CallPin(su: Setup, s: State, call: nat, step: ApiStep)
    requires CanCall(su, s, call, step)
    ensures DoCall(su, s, call, step).w.db.instances == s.w.db.instances
  {
    hide CreateEvent, ResetFailed, WriteEventStatus, ListsFailed, ValidInput, JobIds, Elements, CanCreate, OnlyCall;
    match step
    case Insert(now, reply) => InsertPin(s.w.db, s.calls[call].info, s.calls[call].insts, now);
    case _ =>
  }

  lemma InsertPin(db: Db, info: EventInfo, insts: seq<nat>, now: int)
    ensures CreateEvent(db, info, insts, now).instances == db.instances
  {
  }

  /** One action on an instance without a pin. */
  lemma PinStep(su: Setup, s: State, a: Action, inst: nat)
    requires Enabled(su, s, a) && Unpinned(s, inst)
    ensures var s' := Apply(su, s, a);
      inst in s'.w.db.instances ==>
        if PinCall(s, a, inst) then Pinned(s', inst, a.io.dial.key) else Unpinned(s', inst)
  {
    hide CanCall, DoCall, Step, CanDelete, CanSettle, DoSettle;
    match a
    case Api(call, step) => CallPin(su, s, call, step);
    case Work(i, io) => StepPin(s.w, s.cons[i].d.body.job, s.cons[i].pc, io, su.valid, inst);
    case _ =>
  }

  /** A new row has no pin, and a row that appears was never there before. */
  lemma NewRow(su: Setup, s: State, a: Action, inst: nat)
    requires Enabled(su, s, a) && inst !in s.w.db.instances && inst in Apply(su, s, a).w.db.instances
    ensures Unpinned(Apply(su, s, a), inst) && inst == s.w.db.next
  {
    hide CanCall, DoCall, CanDelete, CanSettle, DoSettle, Step;
    match a
    case Api(call, step) => CallPin(su, s, call, step);
    case Work(i, io) => StepInstances(s.w, s.cons[i].d.body.job, s.cons[i].pc, io, su.valid);
    case _ =>
  }

  lemma StepInstances(w: World, job: nat, pc: Pc, io: Io, valid: Collector.Validator)
    requires Fits(pc, io)
    ensures Step(w, job, pc, io, valid).0.db.instances.Keys == w.db.instances.Keys
  {
    hide MarkJobRunning, WriteEventStatus, WriteJobResult, WriteRollup, RollupAtOnce, Collector.RunTask;
    hide JobsIn, JobsOf, PendingJobs;
  }

  // ---------- over whole runs ----------

  /** Once set, a pin never changes while its instance exists. */
  lemma {:induction false} PinIsWriteOnce(su: Setup, run: seq<Action>, k: nat, inst: nat, key: string)
    requires Legal(su, run) && k <= |run|
    ensures Legal(su, run[..k])
    ensures Pinned(After(su, run[..k]), inst, key) && inst in After(su, run).w.db.instances
            ==> Pinned(After(su, run), inst, key)
  {
    hide Enabled, Allowed, Apply, References, TagsOk, RowsOk, ReadsOk, WellFormed;
    OneToken.LegalPrefix(su, run, k);
    if k == |run| {
      assert run[..k] == run;
    } else {
      var before, a := run[..|run| - 1], run[|run| - 1];
      PinIsWriteOnce(su, before, k, inst, key);
      assert before[..k] == run[..k];
      ReachableStructured(su, before);
      StructuredStep(su, After(su, before), a);
      StaysGone(su, before, k, inst);
    }
  }

  /** A row that is gone stays gone: ids are never used twice. */
  lemma {:induction false} StaysGone(su: Setup, run: seq<Action>, k: nat, inst: nat)
    requires Legal(su, run) && k <= |run|
    ensures Legal(su, run[..k])
    ensures inst in After(su, run[..k]).w.db.instances ==> inst < After(su, run).w.db.next
  {
    hide Enabled, Allowed, Apply, References, TagsOk, RowsOk, ReadsOk;
    OneToken.LegalPrefix(su, run, k);
    ReachableStructured(su, run[..k]);
    NextGrows(su, run, k);
    WellFormedHere(After(su, run[..k]));
  }

  lemma WellFormedHere(s: State)
    requires References(s)
    ensures forall i | i in s.w.db.instances :: i < s.w.db.next
  {
  }

  lemma {:induction false} NextGrows(su: Setup, run: seq<Action>, k: nat)
    requires Legal(su, run) && k <= |run|
    ensures Legal(su, run[..k]) && After(su, run[..k]).w.db.next <= After(su, run).w.db.next
  {
    hide Enabled, Allowed, Apply, References, TagsOk, RowsOk, ReadsOk, WellFormed;
    OneToken.LegalPrefix(su, run, k);
    if k == |run| {
      assert run[..k] == run;
    } else {
      var before := run[..|run| - 1];
      NextGrows(su, before, k);
      assert before[..k] == run[..k];
      ReachableStructured(su, before);
      StructuredStep(su, After(su, before), run[|run| - 1]);
    }
  }

  /** An instance without a pin: no pin call on it has run. */
  lemma {:induction false} NoPinCallYet(su: Setup, run: seq<Action>, inst: nat, m: nat)
    requires Legal(su, run) && Unpinned(After(su, run), inst) && m < |run|
    ensures Legal(su, run[..m]) && !PinCall(After(su, run[..m]), run[m], inst)
  {
    hide Enabled, Allowed, Apply, References, TagsOk, RowsOk, ReadsOk, PinCall;
    OneToken.LegalPrefix(su, run, m);
    var before, a := run[..|run| - 1], run[|run| - 1];
    var s := After(su, before);
    ReachableStructured(su, before);
    if inst !in s.w.db.instances {
      NewRow(su, s, a, inst);
      NotYetThere(su, before, inst, m);
      if m < |before| { assert before[..m] == run[..m]; } else { assert run[..m] == before; }
      if PinCall(After(su, run[..m]), run[m], inst) { CalledInstance(After(su, run[..m]), run[m], inst); }
    } else {
      StructuredStep(su, s, a);
      StillUnpinned(s, Apply(su, s, a), inst);
      PinStep(su, s, a, inst);
      if m < |before| {
        NoPinCallYet(su, before, inst, m);
        assert before[..m] == run[..m];
      } else {
        assert run[..m] == before;
      }
    }
  }

  lemma StillUnpinned(s: State, s': State, inst: nat)
    requires Keeps(s.w.db, s'.w.db) && inst in s.w.db.instances && Unpinned(s', inst)
    ensures Unpinned(s, inst)
  {
    hide WellFormed;
  }

  /** A handler that pins knows an instance that exists. */
  lemma CalledInstance(s: State, a: Action, inst: nat)
    requires References(s) && PinCall(s, a, inst)
    ensures inst in s.w.db.instances
  {
    hide WellFormed, CallsOk, MessagesOk;
    assert ConsumerOk(s.w.db, s.cons[a.i]);
  }

  /** Before a row's id is handed out it is nowhere. */
  lemma NotYetThere(su: Setup, run: seq<Action>, inst: nat, m: nat)
    requires Legal(su, run) && inst >= After(su, run).w.db.next && m <= |run|
    ensures Legal(su, run[..m]) && inst !in After(su, run[..m]).w.db.instances && References(After(su, run[..m]))
  {
    hide Enabled, Allowed, Apply, References, TagsOk, RowsOk, ReadsOk;
    OneToken.LegalPrefix(su, run, m);
    ReachableStructured(su, run[..m]);
    StaysGone(su, run, m, inst);
  }

  /** A stored pin is the key of the first pin call on its instance that ran. */
  lemma {:induction false} PinIsFirstStored(su: Setup, run: seq<Action>, inst: nat, key: string) returns (k: nat)
    requires Legal(su, run) && Pinned(After(su, run), inst, key)
    ensures k < |run| && Legal(su, run[..k])
    ensures PinCall(After(su, run[..k]), run[k], inst) && run[k].io.dial.key == key
    ensures forall m: nat | m < k :: Legal(su, run[..m]) && !PinCall(After(su, run[..m]), run[m], inst)
  {
    hide Enabled, Allowed, Apply, References, TagsOk, RowsOk, ReadsOk, PinCall;
    if run == [] {
      NothingPinned(su, inst, key);
    } else {
      var before, a := run[..|run| - 1], run[|run| - 1];
      var s := After(su, before);
      ReachableStructured(su, before);
      if inst in s.w.db.instances && s.w.db.instances[inst].pin.Some? {
        StructuredStep(su, s, a);
        SamePin(s, Apply(su, s, a), inst);
        k := PinIsFirstStored(su, before, inst, key);
        assert before[..k] == run[..k];
        forall m: nat | m < k ensures Legal(su, run[..m]) && !PinCall(After(su, run[..m]), run[m], inst) {
          assert before[..m] == run[..m];
        }
      } else {
        if inst !in s.w.db.instances { NewRow(su, s, a, inst); }
        PinStep(su, s, a, inst);
        k := |before|;
        assert run[..k] == before;
        forall m: nat | m < k ensures Legal(su, run[..m]) && !PinCall(After(su, run[..m]), run[m], inst) {
          NoPinCallYet(su, before, inst, m);
          assert before[..m] == run[..m];
        }
      }
    }
  }

  lemma NothingPinned(su: Setup, inst: nat, key: string)
    ensures !Pinned(Init(su), inst, key)
  {
  }

  lemma SamePin(s: State, s': State, inst: nat)
    requires Keeps(s.w.db, s'.w.db) && inst in s.w.db.instances && s.w.db.instances[inst].pin.Some?
    requires inst in s'.w.db.instances
    ensures s'.w.db.instances[inst].pin == s.w.db.instances[inst].pin
  {
    hide WellFormed;
  }

  // ---------- which keys a handler trusts ----------

  /** Consumer `i` is serving a message with this context. */
  predicate Serves(s: State, i: nat, ctx: Ctx) {
    i < |s.cons| && s.cons[i].Busy? && s.cons[i].pc.PastLoads() && s.cons[i].pc.ctx == ctx
  }

  /** Action `l` is consumer `i` reading the instance row that `ctx` remembers. */
  ghost predicate Loads(s: State, a: Action, i: nat, ctx: Ctx) {
    && a.Work? && a.i == i && i < |s.cons| && s.cons[i].Busy? && s.cons[i].pc.LoadInstance?
    && ctx.inst in s.w.db.instances && ctx.pin == s.w.db.instances[ctx.inst].pin
  }

  /** From its load at `l` up to now, consumer `i` has been in one and the same handler run. */
  ghost predicate ServesSince(su: Setup, run: seq<Action>, l: nat, i: nat, ctx: Ctx) {
    && l < |run| && Legal(su, run[..l]) && Loads(After(su, run[..l]), run[l], i, ctx)
    && forall n: nat | l < n <= |run| :: Legal(su, run[..n]) && Serves(After(su, run[..n]), i, ctx)
  }

  /** Where the handler that now serves with `ctx` read its instance row. */
  lemma {:induction false} LoadedAt(su: Setup, run: seq<Action>, i: nat, ctx: Ctx) returns (l: nat)
    requires Legal(su, run) && Serves(After(su, run), i, ctx)
    ensures ServesSince(su, run, l, i, ctx)
  {
    hide Enabled, Allowed, Apply, References, TagsOk, RowsOk, ReadsOk, Serves;
    assert run[..|run|] == run;
    if run == [] {
      NobodyServes(su, i, ctx);
    } else {
      var before, a := run[..|run| - 1], run[|run| - 1];
      var s := After(su, before);
      ServesStep(su, s, a, i, ctx);
      if Serves(s, i, ctx) {
        l := LoadedAt(su, before, i, ctx);
        assert before[..l] == run[..l];
        forall n: nat | l < n <= |run| ensures Legal(su, run[..n]) && Serves(After(su, run[..n]), i, ctx) {
          if n <= |before| { assert before[..n] == run[..n]; }
        }
      } else {
        l := |before|;
        assert run[..l] == before;
      }
    }
  }

  lemma NobodyServes(su: Setup, i: nat, ctx: Ctx)
    ensures !Serves(Init(su), i, ctx)
  {
  }

  lemma ServesStep(su: Setup, s: State, a: Action, i: nat, ctx: Ctx)
    requires Enabled(su, s, a) && Serves(Apply(su, s, a), i, ctx)
    ensures Serves(s, i, ctx) || Loads(s, a, i, ctx)
  {
    hide CanCall, DoCall, CanDelete, CanSettle, DoSettle, Step;
    match a
    case Work(k, io) =>
      if k == i {
        var pc := s.cons[i].pc;
        if pc.LoadJob? || pc.LoadEvent? || pc.LoadInstance? {
          LoadStep(s.w, s.cons[i].d.body.job, pc, io, su.valid);
        } else {
          SameCtx(s.w, s.cons[i].d.body.job, pc, io, su.valid);
        }
      }
    case Settle(k, end) => SettleEnds(s, k, end);
    case _ =>
  }

  lemma LoadStep(w: World, job: nat, pc: Pc, io: Io, valid: Collector.Validator)
    requires Fits(pc, io) && (pc.LoadJob? || pc.LoadEvent? || pc.LoadInstance?)
    ensures var pc' := Step(w, job, pc, io, valid).1;
      || pc'.LoadEvent? || pc'.LoadInstance? || pc'.Returned?
      || (pc.LoadInstance? && pc'.MarkJob? && pc'.ctx.inst in w.db.instances
          && pc'.ctx.pin == w.db.instances[pc'.ctx.inst].pin)
  {
    hide DoConnect, DoExecute;
  }

  /** Whatever other workers do from stale snapshots: a handler that read its instance row after the pin
      was stored accepts no key but the pinned one, on its connectivity check and on its script run. */
  lemma TrustsOnlyThePin(su: Setup, run: seq<Action>, k: nat, a: Action, inst: nat, key: string) returns (l: nat)
    requires Legal(su, run) && k <= |run| && Legal(su, run[..k]) && Pinned(After(su, run[..k]), inst, key)
    requires KeyShown(After(su, run), a, inst)
    ensures var ctx := After(su, run).cons[a.i].pc.ctx;
      && ServesSince(su, run, l, a.i, ctx)
      && (k <= l ==> (HostKey.Decide(ctx.pin, a.io.dial).accepted <==> a.io.dial.key == key && key != ""))
  {
    hide Enabled, Allowed, Apply;
    var ctx := After(su, run).cons[a.i].pc.ctx;
    assert Serves(After(su, run), a.i, ctx);
    l := LoadedAt(su, run, a.i, ctx);
    if k <= l {
      assert run[..l][..k] == run[..k];
      PinIsWriteOnce(su, run[..l], k, inst, key);
    }
  }

  // ---------- keys other than the stored one ----------

  /** The host key callback lets the connection of this step go on. */
  predicate Accepts(s: State, a: Action)
    requires a.Work? && a.i < |s.cons| && s.cons[a.i].Busy? && Dials(s.cons[a.i].pc) && Fits(s.cons[a.i].pc, a.io)
  {
    HostKey.Decide(s.cons[a.i].pc.ctx.pin, a.io.dial).accepted
  }

  /** A server of a pinned instance presents another key. */
  ghost predicate OtherKeyShown(s: State, a: Action, inst: nat) {
    KeyShown(s, a, inst) && inst in s.w.db.instances && s.w.db.instances[inst].pin.Some?
    && s.w.db.instances[inst].pin != Some(a.io.dial.key)
  }

  /** In every reachable state, whatever fails: a key other than the stored one is accepted exactly by a
      handler that read the row before the pin was stored and whose own pin call reports no error; the stored
      key stays as it is. */
  lemma MismatchExactly(su: Setup, run: seq<Action>, a: Action, inst: nat)
    requires Legal(su, run) && OtherKeyShown(After(su, run), a, inst)
    ensures var s := After(su, run);
      && (Accepts(s, a) <==> s.cons[a.i].pc.ctx.pin == None && a.io.dial.reply.Confirmed?)
      && Enabled(su, s, a) && inst in Apply(su, s, a).w.db.instances
      && Apply(su, s, a).w.db.instances[inst].pin == s.w.db.instances[inst].pin
  {
    hide After, Legal, Apply, References, TagsOk, RowsOk, ReadsOk, WellFormed;
    var s := After(su, run);
    ReachableStructured(su, run);
    SnapshotIsPin(s, a, inst);
    HostKey.MismatchAccepted(s.w.db, inst, s.cons[a.i].pc.ctx.pin, a.io.dial);
    StructuredStep(su, s, a);
    InstancesStay(su, s, a);
  }

  lemma SnapshotIsPin(s: State, a: Action, inst: nat)
    requires References(s) && KeyShown(s, a, inst) && inst in s.w.db.instances
    ensures s.cons[a.i].pc.ctx.pin.Some? ==> s.cons[a.i].pc.ctx.pin == s.w.db.instances[inst].pin
  {
    hide WellFormed, CallsOk, MessagesOk;
    assert ConsumerOk(s.w.db, s.cons[a.i]);
  }

  lemma InstancesStay(su: Setup, s: State, a: Action)
    requires Enabled(su, s, a) && a.Work?
    ensures Apply(su, s, a).w.db.instances.Keys == s.w.db.instances.Keys
  {
    hide Step;
    StepInstances(s.w, s.cons[a.i].d.body.job, s.cons[a.i].pc, a.io, su.valid);
  }
}
