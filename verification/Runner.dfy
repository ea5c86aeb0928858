/** The worker's Handle, statement by statement over the store and the nodes, proved to be a whole run of
    the handler machine that nothing interleaves with. */
module Runner {
  import opened Types
  import opened Sql
  import opened Handler
  import opened Machine
  import Store
  import Structure
  import Collector
  import HostKey

  /** How each call of one handler run turns out, should the run get that far. */
  datatype Fate = Fate(
    job: Reply, event: Reply, instance: Reply, markJob: Reply, markEvent: Reply, secrets: bool,
    check: HostKey.Dial, script: HostKey.Dial, luck: Collector.Luck, lost: bool,
    result: Reply, counts: Reply, pendings: Reply, rollup: Reply)

  function IoFor(pc: Pc, f: Fate): (io: Io)
    requires !pc.Returned?
    ensures Fits(pc, io)
  {
    match pc
    case LoadJob => Query(f.job)
    case LoadEvent(_, _) => Query(f.event)
    case LoadInstance(_, _, _, _) => Query(f.instance)
    case MarkJob(_) => Query(f.markJob)
    case MarkEvent(_) => Query(f.markEvent)
    case Prepare(_) => Secrets(f.secrets)
    case Connect(_) => Ssh(f.check)
    case Execute(_) => Script(f.script, f.luck, f.lost)
    case Report(_, _, _) => Query(f.result)
    case Count(_) => Query(f.counts)
    case CountPending(_, _, _, _) => Query(f.pendings)
    case Roll(_, _, _, _, _) => Query(f.rollup)
  }

  /** Handler steps from `pc` until the handler returns. */
  function RunToEnd(w: World, job: nat, pc: Pc, f: Fate, valid: Collector.Validator): (r: (World, Pc))
    ensures r.1.Returned?
    decreases Rank(pc)
  {
    if pc.Returned? then (w, pc)
    else
      RankFalls(w, job, pc, IoFor(pc, f), valid);
      var (w', pc') := Step(w, job, pc, IoFor(pc, f), valid);
      RunToEnd(w', job, pc', f, valid)
  }

  lemma OneStep(w: World, job: nat, pc: Pc, f: Fate, valid: Collector.Validator)
    requires !pc.Returned?
    ensures var (w', pc') := Step(w, job, pc, IoFor(pc, f), valid);
      RunToEnd(w, job, pc, f, valid) == RunToEnd(w', job, pc', f, valid)
  {
    hide Step, IoFor;
  }

  lemma AtEnd(w: World, job: nat, pc: Pc, f: Fate, valid: Collector.Validator)
    requires pc.Returned?
    ensures RunToEnd(w, job, pc, f, valid) == (w, pc)
  {
  }

  class Runner {
    const store: Store.Store
    var nodes: map<nat, Collector.Node>
    ghost var log: seq<Fact>

    constructor (store: Store.Store, nodes: map<nat, Collector.Node>)
      ensures this.store == store && this.nodes == nodes && log == []
    {
      this.store, this.nodes, log := store, nodes, [];
    }

    ghost function World(): World
      reads this, store
    {
      Handler.World(store.Contents(), nodes, log)
    }

    /** ssh.Dial with the host key callback of this handler's snapshot. */
    method Dial(ctx: Ctx, dial: HostKey.Dial) returns (ok: bool)
      modifies this`log, store`instances
      ensures (World(), ok) == Trust(old(World()), ctx, dial)
    {
      if dial.Unreachable? { return false; }
      var trusted;
      if ctx.pin.Some? {
        trusted := dial.key == ctx.pin.value && ctx.pin.value != "";
      } else {
        trusted := store.UpdateInstanceHostKeyFingerprint(ctx.inst, dial.key, dial.reply);
      }
      if trusted { log := log + [Trusted(ctx.inst, ctx.pin, dial.key)]; }
      ok := trusted && dial.open;
    }

    method TestConnectivity(job: nat, ctx: Ctx, dial: HostKey.Dial) returns (ok: bool)
      modifies this`log, store`instances
      ensures (World(), if ok then Pc.Execute(ctx) else Report(ctx, JobFailed, 1)) ==
              DoConnect(old(World()), job, ctx, dial)
    {
      ok := Dial(ctx, dial);
      if ok { log := log + [Reached(job, ctx.inst)]; }
    }

    /** RunScript on the target node; None is an error instead of an exit status. */
    method RunScript(job: nat, ctx: Ctx, f: Fate, valid: Collector.Validator) returns (exit: Option<int>)
      requires !ctx.task.UnknownTask?
      modifies this, store`instances
      ensures (World(), Report(ctx, if exit == Some(0) then JobVerified else JobFailed,
                               if exit.Some? then exit.value else 1))
              == DoExecute(old(World()), job, ctx, valid, f.script, f.luck, f.lost)
    {
      hide Collector.RunTask, HostKey.Connect;
      var ok := Dial(ctx, f.script);
      if !ok { return None; }
      var host := new Collector.Host(NodeOf(nodes, ctx.inst));
      var code := host.RunScriptOf(ctx.task, ctx.config, valid, f.luck);
      nodes := nodes[ctx.inst := host.State()];
      if f.lost { return None; }
      log := log + [Ran(job, ctx.inst, ctx.task, ctx.config, code, host.State())];
      exit := Some(code);
    }

    /** Write the job's result, then roll the event up; what failJob does with FAILED. */
    method Finish(job: nat, ctx: Ctx, status: JobStatus, exit: int, f: Fate, valid: Collector.Validator)
      returns (err: bool)
      modifies store`jobs, store`events
      ensures var (w, pc) := RunToEnd(old(World()), job, Report(ctx, status, exit), f, valid);
        World() == w && pc.Returned? && pc.err == err
    {
      hide RunToEnd, WriteJobResult, RollupAtOnce;
      OneStep(World(), job, Report(ctx, status, exit), f, valid);
      var ok := store.UpdateJobResult(job, status, exit, f.result);
      if !ok {
        AtEnd(World(), job, Returned(true, f.result.Effective()), f, valid);
        return true;
      }
      RollupRun(World(), job, ctx, f, valid);
      ok := store.RollupEvent(ctx.ev, f.counts, f.pendings, f.rollup);
      err := !ok;
    }

    /** One message: nil is returned iff the machine's handler returns without an error. */
    method Handle(job: nat, f: Fate, valid: Collector.Validator) returns (err: bool)
      modifies this, store
      ensures var (w, pc) := RunToEnd(old(World()), job, LoadJob, f, valid);
        World() == w && pc.Returned? && pc.err == err
    {
      hide RunToEnd, MarkJobRunning, WriteEventStatus, DoConnect, DoExecute;
      ghost var w0 := World();
      OneStep(w0, job, LoadJob, f, valid);
      AtEnd(w0, job, Returned(true, false), f, valid);
      var row := store.GetJob(job, f.job);
      if row.None? { return true; }
      var ev, inst := row.value.event, row.value.inst;
      OneStep(w0, job, LoadEvent(ev, inst), f, valid);
      var event := store.GetEvent(ev, f.event);
      if event.None? { return true; }
      var info := event.value.0.info;
      OneStep(w0, job, LoadInstance(ev, inst, info.task, ScriptConfig(info)), f, valid);
      var target := store.GetInstance(inst, f.instance);
      if target.None? { return true; }
      err := Serve(job, Ctx(ev, inst, info.task, ScriptConfig(info), target.value.pin), f, valid);
    }

    /** The rest of Handle, once its three rows are loaded. */
    method Serve(job: nat, ctx: Ctx, f: Fate, valid: Collector.Validator) returns (err: bool)
      modifies this, store
      ensures var (w, pc) := RunToEnd(old(World()), job, MarkJob(ctx), f, valid);
        World() == w && pc.Returned? && pc.err == err
    {
      hide RunToEnd, MarkJobRunning, WriteEventStatus, DoConnect, DoExecute;
      OneStep(World(), job, MarkJob(ctx), f, valid);
      var ok := store.UpdateJobRunning(job, f.markJob);
      if !ok {
        AtEnd(World(), job, Returned(true, false), f, valid);
        return true;
      }
      OneStep(World(), job, MarkEvent(ctx), f, valid);
      ok := store.UpdateEventStatus(ctx.ev, EventRunning, f.markEvent);
      OneStep(World(), job, Prepare(ctx), f, valid);
      if !f.secrets {
        err := Finish(job, ctx, JobFailed, 1, f, valid);
        return;
      }
      OneStep(World(), job, Connect(ctx), f, valid);
      ok := TestConnectivity(job, ctx, f.check);
      if !ok {
        err := Finish(job, ctx, JobFailed, 1, f, valid);
        return;
      }
      err := Execute(job, ctx, f, valid);
    }

    method Execute(job: nat, ctx: Ctx, f: Fate, valid: Collector.Validator) returns (err: bool)
      modifies this, store
      ensures var (w, pc) := RunToEnd(old(World()), job, Pc.Execute(ctx), f, valid);
        World() == w && pc.Returned? && pc.err == err
    {
      hide RunToEnd, Trust;
      OneStep(World(), job, Pc.Execute(ctx), f, valid);
      if ctx.task.UnknownTask? {
        err := Finish(job, ctx, JobFailed, 1, f, valid);
        return;
      }
      var exit := RunScript(job, ctx, f, valid);
      if exit.None? {
        err := Finish(job, ctx, JobFailed, 1, f, valid);
        return;
      }
      var status := if exit.value == 0 then JobVerified else JobFailed;
      err := Finish(job, ctx, status, exit.value, f, valid);
    }
  }

  /** The machine's three rollup statements, one after another, are the store's RollupEvent. */
  lemma RollupRun(w: World, job: nat, ctx: Ctx, f: Fate, valid: Collector.Validator)
    ensures RunToEnd(w, job, Count(ctx), f, valid) ==
            (if f.counts.Confirmed? && f.pendings.Confirmed? && f.rollup.Effective()
             then w.(db := RollupAtOnce(w.db, ctx.ev)) else w,
             Returned(!(f.counts.Confirmed? && f.pendings.Confirmed? && f.rollup.Confirmed?), true))
  {
    hide RunToEnd, WriteRollup, JobsOf, JobsIn, PendingJobs;
    OneStep(w, job, Count(ctx), f, valid);
    if f.counts.Confirmed? {
      var pc := Step(w, job, Count(ctx), Query(f.counts), valid).1;
      OneStep(w, job, pc, f, valid);
      if f.pendings.Confirmed? {
        var pc' := Step(w, job, pc, Query(f.pendings), valid).1;
        OneStep(w, job, pc', f, valid);
        var (w'', pc'') := Step(w, job, pc', Query(f.rollup), valid);
        AtEnd(w'', job, pc'', f, valid);
      } else {
        AtEnd(w, job, Returned(true, true), f, valid);
      }
    } else {
      AtEnd(w, job, Returned(true, true), f, valid);
    }
  }

  // ---------- what an undisturbed run achieves ----------

  /** Every database call of the run is confirmed; connections, secrets and the script may still fail. */
  predicate Calm(f: Fate) {
    && f.job.Confirmed? && f.event.Confirmed? && f.instance.Confirmed? && f.markJob.Confirmed? && f.markEvent.Confirmed?
    && f.result.Confirmed? && f.counts.Confirmed? && f.pendings.Confirmed? && f.rollup.Confirmed?
  }

  /** This connection is made: the host answers, its key is accepted, and the session opens. */
  predicate Accepts(pin: Option<string>, dial: HostKey.Dial) {
    && dial.Presented? && dial.open
    && if pin.Some? then pin.value != "" && dial.key == pin.value else dial.reply.Confirmed?
  }

  /** Both connections of the run are made and there is a script to start on the second. */
  predicate Started(ctx: Ctx, f: Fate) {
    f.secrets && Accepts(ctx.pin, f.check) && Accepts(ctx.pin, f.script) && !ctx.task.UnknownTask?
  }

  /** The nodes after a run on these: a script that was started has changed its own target. */
  function NodesAfter(nodes: map<nat, Collector.Node>, ctx: Ctx, f: Fate, valid: Collector.Validator)
    : map<nat, Collector.Node>
  {
    if Started(ctx, f)
    then nodes[ctx.inst := Collector.RunTask(NodeOf(nodes, ctx.inst), ctx.task, ctx.config, valid, f.luck).0]
    else nodes
  }

  /** The result: VERIFIED and 0 exactly if the script is started, has all it needs and reports back. */
  function ResultOf(n: Collector.Node, ctx: Ctx, f: Fate, valid: Collector.Validator): (JobStatus, int) {
    if !Started(ctx, f) || f.lost then (JobFailed, 1)
    else if Collector.Works(n, ctx.task, ctx.config, valid, f.luck) then (JobVerified, 0)
    else (JobFailed, if ctx.task.RollbackConfig? && n.backup.None? then 1 else f.luck.code)
  }

  lemma TrustAccepts(w: World, ctx: Ctx, dial: HostKey.Dial)
    ensures Trust(w, ctx, dial).1 == Accepts(ctx.pin, dial) && Trust(w, ctx, dial).0.nodes == w.nodes
  {
  }

  /** Once the job is marked and up to the write of the result, a run touches one job row, one status and one
      node, and finds the result. */
  lemma UpToReport(w: World, job: nat, ctx: Ctx, f: Fate, valid: Collector.Validator)
    returns (w': World, status: JobStatus, exit: int)
    requires f.markJob.Confirmed?
    ensures RunToEnd(w, job, MarkJob(ctx), f, valid) == RunToEnd(w', job, Report(ctx, status, exit), f, valid)
    ensures !status.Pending()
    ensures w'.db.jobs == MarkJobRunning(w.db, job).jobs
    ensures w'.db.events ==
            if f.markEvent.Effective() then WriteEventStatus(w.db, ctx.ev, EventRunning).events else w.db.events
    ensures (status, exit) == ResultOf(NodeOf(w.nodes, ctx.inst), ctx, f, valid)
    ensures w'.nodes == NodesAfter(w.nodes, ctx, f, valid)
  {
    hide RunToEnd, MarkJobRunning, WriteEventStatus, DoConnect, DoExecute, Accepts, Collector.RunTask, Collector.Works;
    OneStep(w, job, MarkJob(ctx), f, valid);
    var w1 := Step(w, job, MarkJob(ctx), Query(Confirmed), valid).0;
    OneStep(w1, job, MarkEvent(ctx), f, valid);
    var w2 := Step(w1, job, MarkEvent(ctx), Query(f.markEvent), valid).0;
    SameEvents(w.db, w1.db, ctx.ev);
    OneStep(w2, job, Prepare(ctx), f, valid);
    w', status, exit := w2, JobFailed, 1;
    if f.secrets {
      OneStep(w2, job, Connect(ctx), f, valid);
      var (w3, pc) := DoConnect(w2, job, ctx, f.check);
      ConnectResult(w2, job, ctx, f.check);
      w' := w3;
      if pc.Execute? {
        OneStep(w3, job, Pc.Execute(ctx), f, valid);
        var (w4, pc4) := DoExecute(w3, job, ctx, valid, f.script, f.luck, f.lost);
        ExecuteResult(w3, job, ctx, f, valid);
        w', status, exit := w4, pc4.status, pc4.exit;
      }
    }
  }

  lemma ConnectResult(w: World, job: nat, ctx: Ctx, dial: HostKey.Dial)
    ensures DoConnect(w, job, ctx, dial).1.Execute? <==> Accepts(ctx.pin, dial)
  {
    hide Trust, Accepts;
    TrustAccepts(w, ctx, dial);
  }

  lemma ExecuteResult(w: World, job: nat, ctx: Ctx, f: Fate, valid: Collector.Validator)
    requires f.secrets && Accepts(ctx.pin, f.check)
    ensures var (w', pc) := DoExecute(w, job, ctx, valid, f.script, f.luck, f.lost);
      && pc.Report? && (pc.status, pc.exit) == ResultOf(NodeOf(w.nodes, ctx.inst), ctx, f, valid)
      && w'.nodes == NodesAfter(w.nodes, ctx, f, valid)
  {
    hide Trust, Accepts, Collector.RunTask, Collector.Works;
    TrustAccepts(w, ctx, f.script);
    if !ctx.task.UnknownTask? {
      Collector.TaskExactly(NodeOf(w.nodes, ctx.inst), ctx.task, ctx.config, valid, f.luck);
    }
  }

  lemma SameEvents(db: Db, db': Db, ev: nat)
    requires db'.events == db.events
    ensures WriteEventStatus(db', ev, EventRunning).events == WriteEventStatus(db, ev, EventRunning).events
  {
  }

  /** What Handle loads of a job's rows; the configuration goes to the script for the two tasks that need it. */
  function Loaded(db: Db, job: nat): Ctx
    requires job in db.jobs && db.jobs[job].event in db.events && db.jobs[job].inst in db.instances
  {
    var row := db.jobs[job];
    var info := db.events[row.event].info;
    Ctx(row.event, row.inst, info.task,
        if info.task == DeployConfig || info.task == ValidateConfig then info.config else None,
        db.instances[row.inst].pin)
  }

  /** All three rows are there and can be read. */
  predicate Loads(db: Db, job: nat, f: Fate) {
    f.job.Confirmed? && job in db.jobs && f.event.Confirmed? && f.instance.Confirmed?
  }

  lemma RunLoads(w: World, job: nat, f: Fate, valid: Collector.Validator)
    requires WellFormed(w.db)
    ensures job in w.db.jobs ==> w.db.jobs[job].event in w.db.events && w.db.jobs[job].inst in w.db.instances
    ensures RunToEnd(w, job, LoadJob, f, valid) ==
            if Loads(w.db, job, f) then RunToEnd(w, job, MarkJob(Loaded(w.db, job)), f, valid)
            else (w, Returned(true, false))
  {
    hide RunToEnd;
    OneStep(w, job, LoadJob, f, valid);
    AtEnd(w, job, Returned(true, false), f, valid);
    if job in w.db.jobs {
      var ev, inst := w.db.jobs[job].event, w.db.jobs[job].inst;
      assert Linked(w.db, w.db.jobs[job]);
      OneStep(w, job, LoadEvent(ev, inst), f, valid);
      var info := w.db.events[ev].info;
      OneStep(w, job, LoadInstance(ev, inst, info.task, ScriptConfig(info)), f, valid);
    }
  }

  /** What Handle does, whichever of its calls fail. A row that cannot be read, and a job that cannot be marked,
      end it with an error before any connection; that the event cannot be marked is ignored. From then on the
      result is found and written, and an error is returned exactly if that write or the rollup reports one. */
  lemma HandleExactly(w: World, job: nat, f: Fate, valid: Collector.Validator)
    requires WellFormed(w.db)
    ensures job in w.db.jobs ==> w.db.jobs[job].event in w.db.events && w.db.jobs[job].inst in w.db.instances
    ensures var (w', pc) := RunToEnd(w, job, LoadJob, f, valid);
      if !Loads(w.db, job, f) then w' == w && pc.err
      else
        var row, ctx := w.db.jobs[job], Loaded(w.db, job);
        if !f.markJob.Confirmed? then
          && pc.err && w'.nodes == w.nodes && w'.db.events == w.db.events
          && w'.db.jobs == (if f.markJob.Effective() then w.db.jobs[job := row.(status := JobRunning)] else w.db.jobs)
        else
          var (status, exit) := ResultOf(NodeOf(w.nodes, row.inst), ctx, f, valid);
          && w'.nodes == NodesAfter(w.nodes, ctx, f, valid)
          && w'.db.jobs == w.db.jobs[job := if f.result.Effective() then Job(row.event, row.inst, status, Some(exit))
                                            else row.(status := JobRunning)]
          && (pc.err <==> !(f.result.Confirmed? && f.counts.Confirmed? && f.pendings.Confirmed? && f.rollup.Confirmed?))
          && (!f.result.Confirmed? ==>
                w'.db.events == if f.markEvent.Effective() then
                  w.db.events[row.event := w.db.events[row.event].(status := EventRunning)] else w.db.events)
          && (!pc.err ==> RollupAtOnce(w'.db, row.event) == w'.db)
  {
    hide RunToEnd, RollupAtOnce, ResultOf, NodesAfter, WellFormed;
    RunLoads(w, job, f, valid);
    if Loads(w.db, job, f) {
      var ctx := Loaded(w.db, job);
      if !f.markJob.Confirmed? {
        OneStep(w, job, MarkJob(ctx), f, valid);
        AtEnd(Step(w, job, MarkJob(ctx), Query(f.markJob), valid).0, job, Returned(true, false), f, valid);
      } else {
        var w1, status, exit := UpToReport(w, job, ctx, f, valid);
        AfterReport(w1, job, ctx, status, exit, f, valid);
      }
    }
  }

  /** The write of the result and the rollup. */
  lemma AfterReport(w: World, job: nat, ctx: Ctx, status: JobStatus, exit: int, f: Fate, valid: Collector.Validator)
    ensures var (w', pc) := RunToEnd(w, job, Report(ctx, status, exit), f, valid);
      && w'.nodes == w.nodes
      && w'.db.jobs == (if f.result.Effective() then WriteJobResult(w.db, job, status, exit).jobs else w.db.jobs)
      && (pc.err <==> !(f.result.Confirmed? && f.counts.Confirmed? && f.pendings.Confirmed? && f.rollup.Confirmed?))
      && (!f.result.Confirmed? ==> w'.db.events == w.db.events)
      && (!pc.err ==> RollupAtOnce(w'.db, ctx.ev) == w'.db)
  {
    hide RunToEnd, RollupAtOnce, WriteJobResult;
    OneStep(w, job, Report(ctx, status, exit), f, valid);
    var (w1, pc) := Step(w, job, Report(ctx, status, exit), Query(f.result), valid);
    if f.result.Confirmed? {
      RollupRun(w1, job, ctx, f, valid);
      RollupTwice(w1.db, ctx.ev);
    } else {
      AtEnd(w1, job, pc, f, valid);
    }
  }

  /** A calm run returns nil with the event's row exactly what a rollup of its jobs would write and every other
      job as it was. Its own job is VERIFIED with exit status 0 exactly if secrets and both connections are
      fine, and the task's script has what it needs and reports back; otherwise FAILED, with the script's exit
      status if it reported one and 1 if not. Only a script that was started changes its node, and no other. */
  lemma CalmRun(w: World, job: nat, f: Fate, valid: Collector.Validator)
    requires Calm(f) && WellFormed(w.db) && job in w.db.jobs
    ensures w.db.jobs[job].event in w.db.events && w.db.jobs[job].inst in w.db.instances
    ensures var (w', pc) := RunToEnd(w, job, LoadJob, f, valid);
      var ctx, row := Loaded(w.db, job), w.db.jobs[job];
      && pc == Returned(false, true)
      && (var (status, exit) := ResultOf(NodeOf(w.nodes, row.inst), ctx, f, valid);
          w'.db.jobs == w.db.jobs[job := Job(row.event, row.inst, status, Some(exit))])
      && w'.nodes == NodesAfter(w.nodes, ctx, f, valid)
      && RollupAtOnce(w'.db, row.event) == w'.db
  {
    hide RunToEnd, RollupAtOnce, ResultOf, NodesAfter;
    HandleExactly(w, job, f, valid);
    NilAfterResult(w, job, LoadJob, f, valid);
  }

  lemma {:induction false} NilAfterResult(w: World, job: nat, pc: Pc, f: Fate, valid: Collector.Validator)
    requires Sane(pc)
    ensures Sane(RunToEnd(w, job, pc, f, valid).1)
    decreases Rank(pc)
  {
    hide DoConnect, DoExecute, MarkJobRunning, WriteEventStatus, WriteJobResult, WriteRollup, RollupAtOnce, Step, IoFor;
    if !pc.Returned? {
      RankFalls(w, job, pc, IoFor(pc, f), valid);
      Structure.StepSane(w, job, pc, IoFor(pc, f), valid);
      var (w', pc') := Step(w, job, pc, IoFor(pc, f), valid);
      NilAfterResult(w', job, pc', f, valid);
    }
  }

  /** A second rollup right after the first changes nothing. */
  lemma RollupTwice(db: Db, ev: nat)
    ensures RollupAtOnce(RollupAtOnce(db, ev), ev) == RollupAtOnce(db, ev)
  {
    var db' := RollupAtOnce(db, ev);
    assert JobsOf(db', ev) == JobsOf(db, ev) && PendingJobs(db', ev) == PendingJobs(db, ev);
    assert JobsIn(db', ev, JobVerified) == JobsIn(db, ev, JobVerified);
    assert JobsIn(db', ev, JobFailed) == JobsIn(db, ev, JobFailed);
  }

  /** Every reply the handler gets, as far as it runs, is one this setup allows; where the setup's rollup is
      one step, none of its three statements fails. */
  ghost predicate Permitted(su: Setup, w: World, job: nat, pc: Pc, f: Fate)
    decreases Rank(pc)
  {
    pc.Returned? ||
    (var io := IoFor(pc, f);
     RankFalls(w, job, pc, io, su.valid);
     var (w', pc') := Step(w, job, pc, io, su.valid);
     && (ReplyOf(io).Refused? ==> su.refusals) && (ReplyOf(io).Lost? ==> su.losses)
     && (!su.torn && pc.Count? ==> f.counts.Confirmed? && f.pendings.Confirmed? && f.rollup.Confirmed?)
     && Permitted(su, w', job, pc', f))
  }

  /** Not in the middle of a torn rollup, which an atomic setup never is. */
  predicate Fitting(su: Setup, pc: Pc) { su.torn || (!pc.CountPending? && !pc.Roll?) }

  /** What Handle computes is a run of the machine's consumer in every setup that allows the replies it got, so
      everything proved of reachable states, with faults or without, holds of the state it leaves behind. */
  lemma {:induction false} HandleIsARun(su: Setup, run: seq<Action>, i: nat, f: Fate) returns (run': seq<Action>)
    requires Legal(su, run) && i < |After(su, run).cons| && After(su, run).cons[i].Busy?
    requires var c := After(su, run).cons[i];
      Fitting(su, c.pc) && Permitted(su, After(su, run).w, c.d.body.job, c.pc, f)
    ensures run <= run' && Legal(su, run')
    ensures var c, s' := After(su, run).cons[i], After(su, run');
      var (w, pc) := RunToEnd(After(su, run).w, c.d.body.job, c.pc, f, su.valid);
      && s'.w == w && OnlyConsumer(After(su, run), s', i) && s'.cons[i] == c.(pc := pc)
      && s'.ready == After(su, run).ready && s'.dlq == After(su, run).dlq && s'.nextTag == After(su, run).nextTag
      && s'.h.acked == After(su, run).h.acked
    decreases Rank(After(su, run).cons[i].pc)
  {
    hide DoWork, Step, IoFor, RollupAtOnce, After, Legal, CanCall, DoCall, CanDelete, DoSettle, DoDeliver;
    var s := After(su, run);
    var c := s.cons[i];
    if c.pc.Returned? {
      run' := run;
    } else {
      var io := if c.pc.Count? && !su.torn then AtOnce else IoFor(c.pc, f);
      NotAtOnce(c.pc, f);
      RankFalls(s.w, c.d.body.job, c.pc, io, su.valid);
      var a := Action.Work(i, io);
      run' := Act(su, run, a);
      StaysFitting(su, s.w, c.d.body.job, c.pc, io);
      if c.pc.Count? && !su.torn {
        RollupRun(s.w, c.d.body.job, c.pc.ctx, f, su.valid);
        AtOnceStep(s.w, c.d.body.job, c.pc.ctx, su.valid);
      } else {
        run' := HandleIsARun(su, run', i, f);
      }
    }
  }

  lemma AtOnceStep(w: World, job: nat, ctx: Ctx, valid: Collector.Validator)
    ensures Step(w, job, Count(ctx), AtOnce, valid) == (w.(db := RollupAtOnce(w.db, ctx.ev)), Returned(false, true))
  {
  }

  lemma StaysFitting(su: Setup, w: World, job: nat, pc: Pc, io: Io)
    requires Fits(pc, io) && Fitting(su, pc) && (!su.torn && pc.Count? ==> io.AtOnce?)
    ensures Fitting(su, Step(w, job, pc, io, su.valid).1)
  {
    hide DoConnect, DoExecute, MarkJobRunning, WriteEventStatus, WriteJobResult, WriteRollup, RollupAtOnce;
  }

  lemma NotAtOnce(pc: Pc, f: Fate)
    requires !pc.Returned?
    ensures !IoFor(pc, f).AtOnce? && (pc.Count? ==> IoFor(pc, f) == Query(f.counts))
  {
  }
}
