/** Target nodes over runs of the whole machine: what happens to a node is exactly the scripts that handlers
    start on it, and these were ordered by events of the instance's owner. */
module Fleet {
  import opened Types
  import opened Sql
  import opened Handler
  import opened Machine
  import Collector
  import HostKey
  import Ownership
  import Structure

  /** The action starts a script on this instance's node. */
  predicate Starts(s: State, a: Action, inst: nat) {
    && a.Work? && a.i < |s.cons| && s.cons[a.i].Busy? && s.cons[a.i].pc.Execute? && a.io.Script?
    && s.cons[a.i].pc.ctx.inst == inst && !s.cons[a.i].pc.ctx.task.UnknownTask?
    && Trust(s.w, s.cons[a.i].pc.ctx, a.io.dial).1
  }

  function StartedRun(s: State, a: Action, inst: nat): Collector.Run
    requires Starts(s, a, inst)
  {
    Collector.Run(s.cons[a.i].pc.ctx.task, s.cons[a.i].pc.ctx.config, a.io.luck)
  }

  /** All script runs on the node, in order. */
  ghost function NodeRuns(su: Setup, run: seq<Action>, inst: nat): seq<Collector.Run>
    requires Legal(su, run)
  {
    if run == [] then []
    else
      var before, a := run[..|run| - 1], run[|run| - 1];
      NodeRuns(su, before, inst)
      + (if Starts(After(su, before), a, inst) then [StartedRun(After(su, before), a, inst)] else [])
  }

  /** The results of script runs on the node that reached a worker, in order. */
  function Results(log: seq<Fact>, inst: nat): seq<Fact> {
    if log == [] then []
    else
      var last := log[|log| - 1];
      Results(log[..|log| - 1], inst) + (if last.Ran? && last.inst == inst then [last] else [])
  }

  lemma ResultsAppend(log: seq<Fact>, f: Fact, inst: nat)
    ensures Results(log + [f], inst) == Results(log, inst) + (if f.Ran? && f.inst == inst then [f] else [])
  {
    assert (log + [f])[..|log|] == log;
  }

  lemma TrustOnNode(w: World, ctx: Ctx, dial: HostKey.Dial, inst: nat)
    ensures var w' := Trust(w, ctx, dial).0; w'.nodes == w.nodes && Results(w'.log, inst) == Results(w.log, inst)
  {
    if HostKey.Decide(ctx.pin, dial).accepted {
      ResultsAppend(w.log, Trusted(ctx.inst, ctx.pin, dial.key), inst);
      assert Results(w.log, inst) + [] == Results(w.log, inst);
    }
  }

  lemma ConnectOnNode(w: World, job: nat, ctx: Ctx, dial: HostKey.Dial, inst: nat)
    ensures Results(DoConnect(w, job, ctx, dial).0.log, inst) == Results(w.log, inst)
  {
    hide Trust;
    var w1 := Trust(w, ctx, dial).0;
    TrustOnNode(w, ctx, dial, inst);
    ResultsAppend(w1.log, Reached(job, ctx.inst), inst);
    assert Results(w1.log, inst) + [] == Results(w1.log, inst);
  }

  lemma ExecuteOnNode(w: World, job: nat, ctx: Ctx, valid: Collector.Validator, io: Io, inst: nat)
    requires io.Script?
    ensures var w' := DoExecute(w, job, ctx, valid, io.dial, io.luck, io.lost).0;
      if ctx.inst == inst && !ctx.task.UnknownTask? && Trust(w, ctx, io.dial).1 then
        var (n, exit) := Collector.RunTask(NodeOf(w.nodes, inst), ctx.task, ctx.config, valid, io.luck);
        && NodeOf(w'.nodes, inst) == n
        && Results(w'.log, inst) ==
             Results(w.log, inst) + (if io.lost then [] else [Ran(job, inst, ctx.task, ctx.config, exit, n)])
      else NodeOf(w'.nodes, inst) == NodeOf(w.nodes, inst) && Results(w'.log, inst) == Results(w.log, inst)
  {
    hide Trust, Collector.RunTask;
    var w1 := Trust(w, ctx, io.dial).0;
    TrustOnNode(w, ctx, io.dial, inst);
    var (n, exit) := Collector.RunTask(NodeOf(w1.nodes, ctx.inst), ctx.task, ctx.config, valid, io.luck);
    ResultsAppend(w1.log, Ran(job, ctx.inst, ctx.task, ctx.config, exit, n), inst);
    assert Results(w1.log, inst) + [] == Results(w1.log, inst);
  }

  /** What a step's script, if it starts one, makes of the node and of the log. */
  ghost predicate OneRun(su: Setup, s: State, a: Action, s': State, inst: nat) {
    if Starts(s, a, inst) then
      var r := StartedRun(s, a, inst);
      var (n, exit) := Collector.RunTask(NodeOf(s.w.nodes, inst), r.task, r.config, su.valid, r.luck);
      && NodeOf(s'.w.nodes, inst) == n
      && Results(s'.w.log, inst) ==
           Results(s.w.log, inst)
           + (if a.io.lost then [] else [Ran(s.cons[a.i].d.body.job, inst, r.task, r.config, exit, n)])
    else NodeOf(s'.w.nodes, inst) == NodeOf(s.w.nodes, inst) && Results(s'.w.log, inst) == Results(s.w.log, inst)
  }

  lemma WorkOnNode(su: Setup, s: State, a: Action, inst: nat)
    requires a.Work? && a.i < |s.cons| && s.cons[a.i].Busy? && Fits(s.cons[a.i].pc, a.io)
    ensures OneRun(su, s, a, DoWork(su, s, a.i, a.io), inst)
  {
    hide DoWork, DoConnect, DoExecute, Trust, Collector.RunTask, Results, NodeOf, OnlyConsumer;
    var c := s.cons[a.i];
    if c.pc.Execute? {
      ExecuteOnNode(s.w, c.d.body.job, c.pc.ctx, su.valid, a.io, inst);
    } else if c.pc.Connect? {
      ConnectOnNode(s.w, c.d.body.job, c.pc.ctx, a.io.dial, inst);
    }
  }

  lemma StepOnNode(su: Setup, s: State, a: Action, inst: nat)
    requires Enabled(su, s, a)
    ensures OneRun(su, s, a, Apply(su, s, a), inst)
  {
    hide CanCall, DoCall, CanDelete, CanSettle, DoSettle, DoDeliver, DoWork, Collector.RunTask, Results, NodeOf;
    if a.Work? {
      WorkOnNode(su, s, a, inst);
    }
  }

  lemma OneMore(n: Collector.Node, valid: Collector.Validator, runs: seq<Collector.Run>, r: Collector.Run)
    ensures Collector.After(n, valid, runs + [r]) == Collector.Step(Collector.After(n, valid, runs), valid, r)
  {
    assert (runs + [r])[..|runs|] == runs;
  }

  /** This fact is what run number `k` on the node left behind. */
  ghost predicate Tells(n: Collector.Node, valid: Collector.Validator, runs: seq<Collector.Run>, k: nat, f: Fact)
    requires k < |runs| && f.Ran?
  {
    && runs[k].task == f.task && runs[k].config == f.config
    && Collector.RunTask(Collector.After(n, valid, runs[..k]), f.task, f.config, valid, runs[k].luck)
       == (f.node, f.exit)
  }

  ghost predicate Ascending(at: seq<nat>, bound: nat) {
    (forall m | 0 <= m < |at| :: at[m] < bound) && forall m, m' | 0 <= m < m' < |at| :: at[m] < at[m']
  }

  ghost predicate AllTell(n: Collector.Node, valid: Collector.Validator, runs: seq<Collector.Run>, fs: seq<Fact>,
                          at: seq<nat>)
  {
    && |at| == |fs| && Ascending(at, |runs|)
    && forall m | 0 <= m < |fs| :: fs[m].Ran? && Tells(n, valid, runs, at[m], fs[m])
  }

  lemma TellsLater(n: Collector.Node, valid: Collector.Validator, runs: seq<Collector.Run>, r: Collector.Run,
                   fs: seq<Fact>, at: seq<nat>)
    requires AllTell(n, valid, runs, fs, at)
    ensures AllTell(n, valid, runs + [r], fs, at)
  {
    hide Collector.RunTask, Collector.After;
    forall m | 0 <= m < |fs| ensures Tells(n, valid, runs + [r], at[m], fs[m]) {
      assert Tells(n, valid, runs, at[m], fs[m]);
      assert (runs + [r])[..at[m]] == runs[..at[m]];
    }
  }

  /** Whatever fails and however handlers interleave: a node is its first state after exactly the scripts
      started on it, and the results that workers got are those of these runs, in order; `at` says of which. */
  lemma {:induction false} NodeIsItsRuns(su: Setup, run: seq<Action>, inst: nat) returns (at: seq<nat>)
    requires Legal(su, run)
    ensures var n, s, runs := NodeOf(su.nodes, inst), After(su, run), NodeRuns(su, run, inst);
      && NodeOf(s.w.nodes, inst) == Collector.After(n, su.valid, runs)
      && AllTell(n, su.valid, runs, Results(s.w.log, inst), at)
  {
    hide Enabled, Apply, Allowed, Starts, Collector.RunTask, Tells;
    at := [];
    if run != [] {
      var before, a := run[..|run| - 1], run[|run| - 1];
      at := NodeIsItsRuns(su, before, inst);
      StepOnNode(su, After(su, before), a, inst);
      at := OneMoreRun(su, After(su, before), a, After(su, run), inst, NodeRuns(su, before, inst), at);
      assert NodeRuns(su, before, inst) + [] == NodeRuns(su, before, inst);
    }
  }

  lemma OneMoreRun(su: Setup, s: State, a: Action, s': State, inst: nat, runs: seq<Collector.Run>, at: seq<nat>)
    returns (at': seq<nat>)
    requires OneRun(su, s, a, s', inst)
    requires NodeOf(s.w.nodes, inst) == Collector.After(NodeOf(su.nodes, inst), su.valid, runs)
    requires AllTell(NodeOf(su.nodes, inst), su.valid, runs, Results(s.w.log, inst), at)
    ensures var n := NodeOf(su.nodes, inst);
      var runs' := if Starts(s, a, inst) then runs + [StartedRun(s, a, inst)] else runs;
      && NodeOf(s'.w.nodes, inst) == Collector.After(n, su.valid, runs')
      && AllTell(n, su.valid, runs', Results(s'.w.log, inst), at')
  {
    hide Starts, Collector.RunTask, NodeOf, Results, Collector.After;
    at' := at;
    var n := NodeOf(su.nodes, inst);
    if Starts(s, a, inst) {
      var r := StartedRun(s, a, inst);
      OneMore(n, su.valid, runs, r);
      TellsLater(n, su.valid, runs, r, Results(s.w.log, inst), at);
      assert Results(s.w.log, inst) + [] == Results(s.w.log, inst);
      assert (runs + [r])[..|runs|] == runs;
      if Results(s'.w.log, inst) != Results(s.w.log, inst) { at' := at + [|runs|]; }
    }
  }

  // ---------- where a node's files come from ----------

  /** Script run number `k` on the node is step `p` of the whole run. */
  ghost predicate IsStep(su: Setup, run: seq<Action>, inst: nat, k: nat, p: nat)
    requires Legal(su, run)
  {
    && p < |run| && Legal(su, run[..p]) && Starts(After(su, run[..p]), run[p], inst)
    && k < |NodeRuns(su, run, inst)| && NodeRuns(su, run, inst)[k] == StartedRun(After(su, run[..p]), run[p], inst)
    && NodeRuns(su, run[..p], inst) == NodeRuns(su, run, inst)[..k]
  }

  lemma {:induction false} RunIsStep(su: Setup, run: seq<Action>, inst: nat, k: nat) returns (p: nat)
    requires Legal(su, run) && k < |NodeRuns(su, run, inst)|
    ensures p < |run| && IsStep(su, run, inst, k, p)
  {
    hide Enabled, Apply, Allowed, Starts;
    p := |run| - 1;
    var before := run[..p];
    if k < |NodeRuns(su, before, inst)| {
      p := RunIsStep(su, before, inst, k);
      assert run[..p] == before[..p];
    }
  }

  /** The backup on any node that starts without one, in any reachable state: there is one iff some deploy on
      the node completed its backup copy, and it is the file that was there when the latest of these started. */
  lemma NodeBackup(su: Setup, run: seq<Action>, inst: nat)
    requires Legal(su, run) && NodeOf(su.nodes, inst).backup.None?
    ensures var n, now, runs := NodeOf(su.nodes, inst), NodeOf(After(su, run).w.nodes, inst), NodeRuns(su, run, inst);
      if now.backup.None? then forall k | 0 <= k < |runs| :: !Collector.Saves(n, su.valid, runs, k)
      else now.config.Some? && exists k, p | 0 <= k < |runs| && 0 <= p < |run| ::
             && Collector.LastSave(n, su.valid, runs, k) && IsStep(su, run, inst, k, p)
             && now.backup == NodeOf(After(su, run[..p]).w.nodes, inst).config
  {
    hide After, Legal, NodeOf, IsStep, Collector.LastSave, Collector.After, Collector.Saves;
    var n, now, runs := NodeOf(su.nodes, inst), NodeOf(After(su, run).w.nodes, inst), NodeRuns(su, run, inst);
    var at := NodeIsItsRuns(su, run, inst);
    Collector.BackupIsLatestSave(n, su.valid, runs);
    if now.backup.Some? {
      var k :| 0 <= k < |runs| && Collector.LastSave(n, su.valid, runs, k)
               && now.backup == Collector.After(n, su.valid, runs[..k]).config;
      var p := RunIsStep(su, run, inst, k);
      NodeAtStep(su, run, inst, k, p);
    }
  }

  lemma NodeAtStep(su: Setup, run: seq<Action>, inst: nat, k: nat, p: nat)
    requires Legal(su, run) && IsStep(su, run, inst, k, p)
    ensures NodeOf(After(su, run[..p]).w.nodes, inst)
            == Collector.After(NodeOf(su.nodes, inst), su.valid, NodeRuns(su, run, inst)[..k])
  {
    hide After, Legal, NodeOf, Starts;
    var at := NodeIsItsRuns(su, run[..p], inst);
  }

  /** An event on this instance with this task and configuration. */
  ghost predicate Ordered(db: Db, inst: nat, r: Collector.Run) {
    exists e :: e in db.events && inst in db.events[e].targets
                && db.events[e].info.task == r.task && ScriptConfig(db.events[e].info) == r.config
  }

  lemma OrderedLater(db: Db, db': Db, inst: nat, r: Collector.Run)
    requires Keeps(db, db') && Ordered(db, inst, r)
    ensures Ordered(db', inst, r)
  {
    var e :| e in db.events && inst in db.events[e].targets
             && db.events[e].info.task == r.task && ScriptConfig(db.events[e].info) == r.config;
    assert e in db'.events;
  }

  lemma StartedIsOrdered(s: State, a: Action, inst: nat)
    requires Starts(s, a, inst) && Structure.References(s)
    ensures Ordered(s.w.db, inst, StartedRun(s, a, inst))
  {
    hide Trust, Structure.CallsOk, Structure.MessagesOk;
    var c := s.cons[a.i];
    assert Structure.ConsumerOk(s.w.db, c);
    assert Linked(s.w.db, s.w.db.jobs[c.d.body.job]);
  }

  /** No script runs on a node, with any configuration, that no event on that instance asks for. */
  lemma {:induction false} RunsAreOrdered(su: Setup, run: seq<Action>, inst: nat, k: nat)
    requires Legal(su, run) && k < |NodeRuns(su, run, inst)|
    ensures Ordered(After(su, run).w.db, inst, NodeRuns(su, run, inst)[k])
  {
    hide Enabled, Apply, Allowed, Starts, Ordered, Structure.Structured;
    var before, a := run[..|run| - 1], run[|run| - 1];
    Structure.ReachableStructured(su, before);
    Structure.StructuredStep(su, After(su, before), a);
    if k < |NodeRuns(su, before, inst)| {
      RunsAreOrdered(su, before, inst, k);
    } else {
      StructuredRefers(After(su, before));
      StartedIsOrdered(After(su, before), a, inst);
    }
    OrderedLater(After(su, before).w.db, After(su, run).w.db, inst, NodeRuns(su, run, inst)[k]);
  }

  lemma StructuredRefers(s: State)
    requires Structure.Structured(s)
    ensures Structure.References(s)
  {
  }

  predicate Deploys(info: EventInfo, text: string) { info.task.DeployConfig? && info.config == Some(text) }

  /** Whatever fails: a text that a node has in a file or has loaded, if it was not there at the start and is
      not the installer's own, is the configuration of a deployment to that instance by its owner. */
  lemma OnlyOrderedFiles(su: Setup, run: seq<Action>, inst: nat, text: string) returns (e: nat)
    requires Legal(su, run) && Collector.Has(NodeOf(After(su, run).w.nodes, inst), text)
    requires !Collector.Has(NodeOf(su.nodes, inst), text) && text != Collector.DEFAULT_CONFIG
    ensures var db := After(su, run).w.db;
      && e in db.events && inst in db.events[e].targets && Deploys(db.events[e].info, text)
      && inst in db.instances && db.instances[inst].owner == db.events[e].info.owner
  {
    hide After, Legal, NodeOf, Collector.After;
    var runs := NodeRuns(su, run, inst);
    var at := NodeIsItsRuns(su, run, inst);
    Collector.FilesComeFromDeploys(NodeOf(su.nodes, inst), su.valid, runs, text);
    var k :| 0 <= k < |runs| && runs[k].task.DeployConfig? && runs[k].config == Some(text);
    RunsAreOrdered(su, run, inst, k);
    var db := After(su, run).w.db;
    e :| e in db.events && inst in db.events[e].targets
         && db.events[e].info.task == runs[k].task && ScriptConfig(db.events[e].info) == runs[k].config;
    Ownership.ReachableOwned(su, run);
    assert Ownership.RowOwned(su, db, e);
  }
}
