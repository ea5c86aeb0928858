/** The worker's per-message state machine: one step is one SQL statement or one SSH connection. */
module Handler {
  import opened Types
  import opened Sql
  import opened Collector
  import HostKey

  /** Facts about the outside world, in the order they happened. */
  datatype Fact =
    | Reached(job: nat, inst: nat)
    | Ran(job: nat, inst: nat, task: TaskType, config: Option<string>, exit: int, node: Node)
    | Trusted(inst: nat, snapshot: Option<string>, key: string)

  /** What handler steps act on: the database and the target nodes, with a log of facts kept for
      the theorems only. */
  datatype World = World(db: Db, nodes: map<nat, Node>, log: seq<Fact>)

  const BLANK := Node(false, false, None, None, None, false)

  function NodeOf(nodes: map<nat, Node>, inst: nat): Node {
    if inst in nodes then nodes[inst] else BLANK
  }

  /** The configuration a task's script is given. */
  function ScriptConfig(info: EventInfo): Option<string> {
    if info.task.RequiresConfig() then info.config else None
  }

  /** What a handler remembers of the rows it loaded; `config` is what it will hand to the script. */
  datatype Ctx = Ctx(ev: nat, inst: nat, task: TaskType, config: Option<string>, pin: Option<string>)

  datatype Pc =
    | LoadJob
    | LoadEvent(ev: nat, inst: nat)
    | LoadInstance(ev: nat, inst: nat, task: TaskType, config: Option<string>)
    | MarkJob(ctx: Ctx)
    | MarkEvent(ctx: Ctx)
    | Prepare(ctx: Ctx)
    | Connect(ctx: Ctx)
    | Execute(ctx: Ctx)
    | Report(ctx: Ctx, status: JobStatus, exit: int)
    | Count(ctx: Ctx)
    | CountPending(ctx: Ctx, verified: nat, failed: nat, total: nat)
    | Roll(ctx: Ctx, verified: nat, failed: nat, total: nat, pending: nat)
    | Returned(err: bool, wrote: bool)
  {
    /** The handler has not yet written the job's result. */
    predicate Early() {
      !Count? && !CountPending? && !Roll? && !(Returned? && wrote)
    }

    /** The handler has its three rows and has not returned. */
    predicate PastLoads() { !LoadJob? && !LoadEvent? && !LoadInstance? && !Returned? }

    /** The result is written and RollupEvent is not finished. */
    predicate RollingUp() { Count? || CountPending? || Roll? }
  }

  /** How one step's call turns out. `AtOnce` is all of RollupEvent with nothing in between. */
  datatype Io =
    | Query(reply: Reply)
    | Secrets(ok: bool)
    | Ssh(dial: HostKey.Dial)
    | Script(dial: HostKey.Dial, luck: Luck, lost: bool)
    | AtOnce

  /** A result is final, VERIFIED comes with exit status 0, and a nil return follows a written result. */
  predicate Sane(pc: Pc) {
    && (pc.Report? ==> !pc.status.Pending() && (pc.status.JobVerified? ==> pc.exit == 0))
    && (pc.Returned? ==> pc.err || pc.wrote)
  }

  predicate Fits(pc: Pc, io: Io) {
    match pc
    case Prepare(_) => io.Secrets?
    case Connect(_) => io.Ssh?
    case Execute(_) => io.Script?
    case Count(_) => io.Query? || io.AtOnce?
    case Returned(_, _) => false
    case _ => io.Query?
  }

  /** The reply a step's database call gets, if it makes one. */
  function ReplyOf(io: Io): Reply {
    match io
    case Query(r) => r
    case Ssh(Presented(_, r, _)) => r
    case Script(Presented(_, r, _), _, _) => r
    case _ => Confirmed
  }

  function Trust(w: World, ctx: Ctx, dial: HostKey.Dial): (r: (World, bool))
    ensures w.log <= r.0.log
  {
    var (db, ok) := HostKey.Connect(w.db, ctx.inst, ctx.pin, dial);
    (w.(db := db,
        log := if HostKey.Decide(ctx.pin, dial).accepted
               then w.log + [Trusted(ctx.inst, ctx.pin, dial.key)] else w.log),
     ok)
  }

  /** TestConnectivity; a failure is written as the job's result. */
  function DoConnect(w: World, job: nat, ctx: Ctx, dial: HostKey.Dial): (r: (World, Pc))
    ensures r.1 == Execute(ctx) || r.1 == Report(ctx, JobFailed, 1)
    ensures r.0.db.jobs == w.db.jobs && r.0.db.events == w.db.events && r.0.nodes == w.nodes
    ensures w.log <= r.0.log && (r.1.Execute? ==> Reached(job, ctx.inst) in r.0.log)
  {
    var (w1, ok) := Trust(w, ctx, dial);
    if ok then (w1.(log := w1.log + [Reached(job, ctx.inst)]), Execute(ctx))
    else (w1, Report(ctx, JobFailed, 1))
  }

  /** ScriptFor and RunScript; `lost` is a session that ends without an exit status. */
  function DoExecute(w: World, job: nat, ctx: Ctx, valid: Validator, dial: HostKey.Dial, luck: Luck, lost: bool)
    : (r: (World, Pc))
    ensures r.1.Report? && r.1.ctx == ctx && Sane(r.1)
    ensures r.0.db.jobs == w.db.jobs && r.0.db.events == w.db.events && w.log <= r.0.log
  {
    if ctx.task.UnknownTask? then (w, Report(ctx, JobFailed, 1))
    else
      var (w1, ok) := Trust(w, ctx, dial);
      if !ok then (w1, Report(ctx, JobFailed, 1))
      else
        var (n, exit) := RunTask(NodeOf(w1.nodes, ctx.inst), ctx.task, ctx.config, valid, luck);
        var w2 := w1.(nodes := w1.nodes[ctx.inst := n]);
        if lost then (w2, Report(ctx, JobFailed, 1))
        else
          (w2.(log := w2.log + [Ran(job, ctx.inst, ctx.task, ctx.config, exit, n)]),
           Report(ctx, if exit == 0 then JobVerified else JobFailed, exit))
  }

  /** One handler step on message `job`. */
  function Step(w: World, job: nat, pc: Pc, io: Io, valid: Validator): (World, Pc)
    requires Fits(pc, io)
  {
    match pc
    case LoadJob =>
      if io.reply.Confirmed? && job in w.db.jobs
      then (w, LoadEvent(w.db.jobs[job].event, w.db.jobs[job].inst)) else (w, Returned(true, false))
    case LoadEvent(ev, inst) =>
      if io.reply.Confirmed? && ev in w.db.events
      then
        var info := w.db.events[ev].info;
        (w, LoadInstance(ev, inst, info.task, ScriptConfig(info)))
      else (w, Returned(true, false))
    case LoadInstance(ev, inst, task, config) =>
      if io.reply.Confirmed? && inst in w.db.instances
      then (w, MarkJob(Ctx(ev, inst, task, config, w.db.instances[inst].pin))) else (w, Returned(true, false))
    case MarkJob(ctx) =>
      (if io.reply.Effective() then w.(db := MarkJobRunning(w.db, job)) else w,
       if io.reply.Confirmed? then MarkEvent(ctx) else Returned(true, false))
    case MarkEvent(ctx) =>
      (if io.reply.Effective() then w.(db := WriteEventStatus(w.db, ctx.ev, EventRunning)) else w, Prepare(ctx))
    case Prepare(ctx) =>
      (w, if io.ok then Connect(ctx) else Report(ctx, JobFailed, 1))
    case Connect(ctx) => DoConnect(w, job, ctx, io.dial)
    case Execute(ctx) => DoExecute(w, job, ctx, valid, io.dial, io.luck, io.lost)
    case Report(ctx, status, exit) =>
      (if io.reply.Effective() then w.(db := WriteJobResult(w.db, job, status, exit)) else w,
       if io.reply.Confirmed? then Count(ctx) else Returned(true, io.reply.Effective()))
    case Count(ctx) =>
      if io.AtOnce? then (w.(db := RollupAtOnce(w.db, ctx.ev)), Returned(false, true))
      else if !io.reply.Confirmed? then (w, Returned(true, true))
      else
        (w, CountPending(ctx, |JobsIn(w.db, ctx.ev, JobVerified)|, |JobsIn(w.db, ctx.ev, JobFailed)|,
                         |JobsOf(w.db, ctx.ev)|))
    case CountPending(ctx, v, f, t) =>
      if io.reply.Confirmed? then (w, Roll(ctx, v, f, t, |PendingJobs(w.db, ctx.ev)|)) else (w, Returned(true, true))
    case Roll(ctx, v, f, t, p) =>
      (if io.reply.Effective() then w.(db := WriteRollup(w.db, ctx.ev, RollupStatus(v, f, t, p), v, f, t)) else w,
       Returned(!io.reply.Confirmed?, true))
  }

  /** The step writes the status column of the handler's event. */
  predicate WritesStatus(pc: Pc, io: Io) {
    (pc.MarkEvent? || pc.Roll? || (pc.Count? && io.AtOnce?)) && ReplyOf(io).Effective()
  }

  // ---------- a handler run ends ----------

  /** How far a handler is from returning, in steps at most. */
  function Rank(pc: Pc): nat {
    match pc
    case LoadJob => 13
    case LoadEvent(_, _) => 12
    case LoadInstance(_, _, _, _) => 11
    case MarkJob(_) => 10
    case MarkEvent(_) => 9
    case Prepare(_) => 8
    case Connect(_) => 7
    case Execute(_) => 6
    case Report(_, _, _) => 5
    case Count(_) => 4
    case CountPending(_, _, _, _) => 3
    case Roll(_, _, _, _, _) => 2
    case Returned(_, _) => 1
  }

  lemma RankFalls(w: World, job: nat, pc: Pc, io: Io, valid: Collector.Validator)
    requires Fits(pc, io)
    ensures Rank(Step(w, job, pc, io, valid).1) < Rank(pc)
  {
    hide DoConnect, DoExecute, MarkJobRunning, WriteEventStatus, WriteJobResult, WriteRollup, RollupAtOnce;
    hide JobsIn, JobsOf, PendingJobs;
  }
}
