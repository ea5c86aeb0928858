/** The whole system as a step machine: API calls, broker and N consumers over one database.
    One action is one SQL statement (or transaction), one broker operation or one SSH connection. */
module Machine {
  import opened Types
  import opened Sql
  import opened Handler
  import opened Requests
  import Collector
  import Retry

  /** What may go wrong in a run, and the fixed surroundings. With `torn` RollupEvent is three separate
      statements; without it, one. */
  datatype Setup = Setup(
    consumers: nat,
    yaml: string -> bool,
    valid: Collector.Validator,
    nodes: map<nat, Collector.Node>,
    refusals: bool, losses: bool, crashes: bool, torn: bool)
  {
    predicate FaultFree() { !refusals && !losses && !crashes }
  }

  datatype JobMessage = JobMessage(job: nat, event: nat, inst: nat, task: TaskType)

  /** A message; `id` names the API's publish it goes back to and is not part of what is sent. */
  datatype Delivery = Delivery(id: nat, body: JobMessage, headers: Retry.Headers)

  datatype Consumer =
    | Idle
    | Busy(tag: nat, d: Delivery, pc: Pc)
    | Republished(tag: nat, d: Delivery)
    | RepublishFailed(tag: nat, d: Delivery, wrote: bool)

  /** An API call in flight. Create walks Checking, NeedStatus, Publishing; RerunFailed walks
      NeedStatus, NeedEvent, Publishing; a `late` one learns of its UPDATE's error only after the status is
      written, and ends there. */
  datatype Call =
    | Checking(info: EventInfo, insts: seq<nat>, checked: nat)
    | NeedStatus(ev: nat, jobs: seq<nat>, rerun: bool, task: TaskType, late: bool)
    | NeedEvent(ev: nat, jobs: seq<nat>)
    | Publishing(ev: nat, jobs: seq<nat>, task: TaskType, pos: nat)
  {
    /** Job number `k` of this call's list is still to be published. */
    predicate Owes(k: nat) {
      !Checking? && k < |jobs| && (Publishing? ==> pos <= k) && (NeedStatus? ==> !late)
    }
  }

  /** Bookkeeping for the theorems; no step reads it.
      `published`: what the API's publishes put on the queue, by message id; `acked`: ids acknowledged after
      a handler run that returned nil; `fails`: handler runs that returned an error, by message id.
      `emptied`: events whose last status write came from a RerunFailed that reset no job.
      `abandoned`: jobs whose API call reported an error before publishing them, until a later rerun takes
      charge of them. */
  datatype History = History(
    published: map<nat, JobMessage>, acked: set<nat>, fails: map<nat, nat>,
    abandoned: set<nat>, emptied: set<nat>)

  /** `gone` are the consumers whose Consume has returned; nobody starts them again. */
  datatype State = State(
    w: World,
    ready: map<nat, Delivery>,
    dlq: map<nat, Delivery>,
    cons: seq<Consumer>,
    gone: set<nat>,
    calls: map<nat, Call>,
    nextTag: nat,
    h: History)

  datatype ApiStep =
    | StartCreate(info: EventInfo, insts: seq<nat>)
    | CheckOwner(reply: Reply)
    | Insert(now: int, reply: Reply)
    | Reset(ev: nat, jobs: seq<nat>, reply: Reply)
    | ResetLate(ev: nat, jobs: seq<nat>, reply: Reply)
    | WriteStatus(reply: Reply)
    | ReadBack(reply: Reply)
    | Publish(reply: Reply)
    | Finish
    | Die

  datatype SettleStep = Ack | DeadLetter | Republish(reply: Reply) | AckOld | Crash

  datatype Action =
    | AddInstance(owner: string)
    | RemoveInstance(inst: nat, owner: string)
    | Api(call: nat, step: ApiStep)
    | Deliver(i: nat, tag: nat)
    | Work(i: nat, io: Io)
    | Settle(i: nat, end: SettleStep)
    | Quit(i: nat)

  function Init(su: Setup): State {
    State(World(EMPTY, su.nodes, []), map[], map[], seq(su.consumers, _ => Idle), {}, map[], 0,
          History(map[], {}, map[], {}, {}))
  }

  /** How the action ends for who takes it; an API process that dies learns nothing any more. */
  function ActionReply(a: Action): Reply {
    match a
    case Api(_, StartCreate(_, _)) => Confirmed
    case Api(_, Finish) => Confirmed
    case Api(_, Die) => Lost
    case Api(_, step) => step.reply
    case Work(_, io) => ReplyOf(io)
    case Settle(_, Republish(r)) => r
    case _ => Confirmed
  }

  /** A worker dies, a consumer's channel closes, or an API process dies. */
  predicate Crashing(a: Action) {
    (a.Settle? && a.end.Crash?) || a.Quit? || (a.Api? && a.step.Die?)
  }

  /** The faults and the rollup mode the setup allows. */
  ghost predicate Allowed(su: Setup, s: State, a: Action) {
    && (ActionReply(a).Refused? ==> su.refusals)
    && (ActionReply(a).Lost? && !Crashing(a) ==> su.losses)
    && (Crashing(a) ==> su.crashes)
    && (a.Work? && a.i < |s.cons| && s.cons[a.i].Busy? && s.cons[a.i].pc.Count? ==> (a.io.AtOnce? <==> !su.torn))
  }

  /** What Create has checked and computed before its first query. */
  predicate ValidInput(su: Setup, info: EventInfo, insts: seq<nat>) {
    insts != [] && ConfigFits(su.yaml, info.task, info.config) && info.checksum == Checksum(info.config)
  }

  ghost predicate ListsFailed(db: Db, ev: nat, jobs: seq<nat>) {
    Distinct(jobs) && Elements(jobs) == JobsIn(db, ev, JobFailed)
  }

  ghost predicate CanCall(su: Setup, s: State, call: nat, step: ApiStep) {
    match step
    case StartCreate(info, insts) => call !in s.calls && ValidInput(su, info, insts)
    case Reset(ev, jobs, _) => call !in s.calls && ListsFailed(s.w.db, ev, jobs)
    case ResetLate(ev, jobs, reply) => call !in s.calls && ListsFailed(s.w.db, ev, jobs) && !reply.Confirmed?
    case CheckOwner(_) => call in s.calls && s.calls[call].Checking? && s.calls[call].checked < |s.calls[call].insts|
    case Insert(_, _) => call in s.calls && s.calls[call].Checking? && s.calls[call].checked >= |s.calls[call].insts|
    case WriteStatus(_) => call in s.calls && s.calls[call].NeedStatus?
    case ReadBack(_) => call in s.calls && s.calls[call].NeedEvent?
    case Publish(_) => call in s.calls && s.calls[call].Publishing? && s.calls[call].pos < |s.calls[call].jobs|
    case Finish => call in s.calls && s.calls[call].Publishing? && s.calls[call].pos >= |s.calls[call].jobs|
    case Die => call in s.calls
  }

  predicate CanSettle(c: Consumer, end: SettleStep) {
    match end
    case Ack => c.Busy? && c.pc.Returned? && !c.pc.err
    case DeadLetter => c.RepublishFailed? || (Failed(c) && Retry.Exhausted(c.d.headers))
    case Republish(_) => Failed(c) && !Retry.Exhausted(c.d.headers)
    case AckOld => c.Republished?
    case Crash => !c.Idle?
  }

  ghost predicate Enabled(su: Setup, s: State, a: Action) {
    match a
    case AddInstance(_) => true
    case RemoveInstance(inst, owner) => CanDelete(s.w.db, inst, owner)
    case Api(call, step) => CanCall(su, s, call, step)
    case Deliver(i, tag) => i < |s.cons| && s.cons[i].Idle? && i !in s.gone && tag in s.ready
    case Work(i, io) => i < |s.cons| && s.cons[i].Busy? && Fits(s.cons[i].pc, io)
    case Settle(i, end) => i < |s.cons| && CanSettle(s.cons[i], end)
    case Quit(i) => i < |s.cons| && s.cons[i].Idle? && i !in s.gone
  }

  /** The handler returned an error and the message is not settled yet. */
  predicate Failed(c: Consumer) { c.Busy? && c.pc.Returned? && c.pc.err }

  // ---------- effects of the API's steps ----------

  /** An API step leaves consumers, dead letters, nodes and all other calls alone. */
  ghost predicate OnlyCall(s: State, s': State, call: nat) {
    && s'.cons == s.cons && s'.gone == s.gone && s'.dlq == s.dlq && s'.w.nodes == s.w.nodes && s'.w.log == s.w.log
    && s'.h.acked == s.h.acked
    && (forall c | c != call :: (c in s'.calls <==> c in s.calls) && (c in s.calls ==> s'.calls[c] == s.calls[c]))
  }

  /** A handler step leaves broker, calls and the other consumers alone. */
  ghost predicate OnlyConsumer(s: State, s': State, i: nat)
    requires i < |s.cons|
  {
    && |s'.cons| == |s.cons| && s'.cons == s.cons[i := s'.cons[i]]
    && s'.gone == s.gone && s'.calls == s.calls && s'.h.abandoned == s.h.abandoned && s'.h.published == s.h.published
  }

  function WithDb(s: State, db: Db): State { s.(w := s.w.(db := db)) }

  function EndCall(s: State, call: nat): State { s.(calls := s.calls - {call}) }

  /** The call returns an error: whatever it has not published is nobody's business any more. */
  function Abandon(s: State, call: nat, jobs: seq<nat>): State {
    EndCall(s, call).(h := s.h.(abandoned := s.h.abandoned + Elements(jobs)))
  }

  function SetCall(s: State, call: nat, c: Call): State { s.(calls := s.calls[call := c]) }

  ghost function DoStart(s: State, call: nat, info: EventInfo, insts: seq<nat>): (s': State)
    requires call !in s.calls
    ensures OnlyCall(s, s', call)
    ensures s'.ready == s.ready && s'.nextTag == s.nextTag && s'.h.published == s.h.published && s'.h.fails == s.h.fails
    ensures s'.w == s.w
    ensures s'.h.emptied == s.h.emptied
  {
    SetCall(s, call, Checking(info, insts, 0))
  }

  /** One ownership SELECT. */
  ghost function DoCheck(s: State, call: nat, reply: Reply): (s': State)
    requires call in s.calls && s.calls[call].Checking? && s.calls[call].checked < |s.calls[call].insts|
    ensures OnlyCall(s, s', call)
    ensures s'.ready == s.ready && s'.nextTag == s.nextTag && s'.h.published == s.h.published && s'.h.fails == s.h.fails
    ensures s'.w == s.w
    ensures s'.h.emptied == s.h.emptied
  {
    var c := s.calls[call];
    var inst := c.insts[c.checked];
    if reply.Confirmed? && inst in s.w.db.instances && s.w.db.instances[inst].owner == c.info.owner
    then SetCall(s, call, c.(checked := c.checked + 1))
    else EndCall(s, call)
  }

  /** The transaction of CreateEventWithJobs; a key violation rolls it back. */
  ghost function DoInsert(s: State, call: nat, now: int, reply: Reply): (s': State)
    requires call in s.calls && s.calls[call].Checking?
    ensures OnlyCall(s, s', call)
    ensures s'.ready == s.ready && s'.nextTag == s.nextTag && s'.h.published == s.h.published && s'.h.fails == s.h.fails
    ensures s'.h.emptied == s.h.emptied
  {
    var c := s.calls[call];
    if !reply.Effective() || !CanCreate(s.w.db, c.info, c.insts) then EndCall(s, call)
    else
      var jobs := JobIds(s.w.db, |c.insts|);
      var s' := WithDb(s, CreateEvent(s.w.db, c.info, c.insts, now));
      if reply.Confirmed? then SetCall(s', call, NeedStatus(s.w.db.next, jobs, false, c.info.task, false))
      else Abandon(s', call, jobs)
  }

  /** ResetFailedJobs' UPDATE; an error after it has run leaves the reset jobs to nobody. */
  ghost function DoReset(s: State, call: nat, ev: nat, jobs: seq<nat>, reply: Reply): (s': State)
    requires call !in s.calls
    ensures OnlyCall(s, s', call)
    ensures s'.ready == s.ready && s'.nextTag == s.nextTag && s'.h.published == s.h.published && s'.h.fails == s.h.fails
    ensures s'.h.emptied == s.h.emptied
  {
    if !reply.Effective() then s
    else
      var s' := WithDb(s, ResetFailed(s.w.db, ev));
      if reply.Confirmed?
      then SetCall(s', call, NeedStatus(ev, jobs, true, UnknownTask(""), false))
           .(h := s.h.(abandoned := s.h.abandoned - Elements(jobs)))
      else Abandon(s', call, jobs)
  }

  /** The same UPDATE when its error shows only while its rows are read: the status is still to be written. */
  ghost function DoResetLate(s: State, call: nat, ev: nat, jobs: seq<nat>, reply: Reply): (s': State)
    requires call !in s.calls && !reply.Confirmed?
    ensures OnlyCall(s, s', call)
    ensures s'.ready == s.ready && s'.nextTag == s.nextTag && s'.h.published == s.h.published && s'.h.fails == s.h.fails
    ensures s'.h.emptied == s.h.emptied
    ensures s'.w == DoReset(s, call, ev, jobs, reply).w && s'.h == DoReset(s, call, ev, jobs, reply).h
    ensures s'.calls == s.calls[call := LateCall(ev, jobs, reply)]
  {
    SetCall(DoReset(s, call, ev, jobs, reply), call, LateCall(ev, jobs, reply))
  }

  function LateCall(ev: nat, jobs: seq<nat>, reply: Reply): Call {
    NeedStatus(ev, if reply.Effective() then jobs else [], true, UnknownTask(""), true)
  }

  ghost function DoWriteStatus(s: State, call: nat, reply: Reply): (s': State)
    requires call in s.calls && s.calls[call].NeedStatus?
    ensures OnlyCall(s, s', call)
    ensures s'.w.db ==
      if reply.Effective() then WriteEventStatus(s.w.db, s.calls[call].ev, EventRunning) else s.w.db
    ensures s'.ready == s.ready && s'.nextTag == s.nextTag && s'.h.published == s.h.published && s'.h.fails == s.h.fails
  {
    var c := s.calls[call];
    var s' :=
      if reply.Effective()
      then WithDb(s, WriteEventStatus(s.w.db, c.ev, EventRunning))
           .(h := s.h.(emptied := if c.rerun && c.jobs == [] && c.ev in s.w.db.events
                                 then s.h.emptied + {c.ev} else s.h.emptied - {c.ev}))
      else s;
    if c.late then EndCall(s', call)
    else if !reply.Confirmed? then Abandon(s', call, c.jobs)
    else SetCall(s', call, if c.rerun then NeedEvent(c.ev, c.jobs) else Publishing(c.ev, c.jobs, c.task, 0))
  }

  ghost function DoReadBack(s: State, call: nat, reply: Reply): (s': State)
    requires call in s.calls && s.calls[call].NeedEvent?
    ensures OnlyCall(s, s', call)
    ensures s'.ready == s.ready && s'.nextTag == s.nextTag && s'.h.published == s.h.published && s'.h.fails == s.h.fails
    ensures s'.w == s.w
    ensures s'.h.emptied == s.h.emptied
  {
    var c := s.calls[call];
    if reply.Confirmed? && c.ev in s.w.db.events
    then SetCall(s, call, Publishing(c.ev, c.jobs, s.w.db.events[c.ev].info.task, 0))
    else Abandon(s, call, c.jobs)
  }

  function MessageFor(db: Db, job: nat, task: TaskType): (m: JobMessage)
    ensures m.job == job
  {
    if job in db.jobs then JobMessage(job, db.jobs[job].event, db.jobs[job].inst, task)
    else JobMessage(job, 0, 0, task)
  }

  ghost function DoPublish(s: State, call: nat, reply: Reply): (s': State)
    requires call in s.calls && s.calls[call].Publishing? && s.calls[call].pos < |s.calls[call].jobs|
    ensures OnlyCall(s, s', call)
    ensures s'.w == s.w
    ensures s'.h.emptied == s.h.emptied
  {
    var c := s.calls[call];
    var m := Delivery(s.nextTag, MessageFor(s.w.db, c.jobs[c.pos], c.task), Retry.NoHeaders);
    var s' :=
      if reply.Effective()
      then s.(ready := s.ready[s.nextTag := m], nextTag := s.nextTag + 1,
              h := s.h.(published := s.h.published[s.nextTag := m.body], fails := s.h.fails[s.nextTag := 0]))
      else s;
    if reply.Confirmed? then SetCall(s', call, c.(pos := c.pos + 1))
    else Abandon(s', call, c.jobs[c.pos..])
  }

  ghost function DoFinish(s: State, call: nat): (s': State)
    requires call in s.calls
    ensures OnlyCall(s, s', call)
    ensures s'.ready == s.ready && s'.nextTag == s.nextTag && s'.h.published == s.h.published && s'.h.fails == s.h.fails
    ensures s'.w == s.w
    ensures s'.h.emptied == s.h.emptied
  {
    EndCall(s, call)
  }

  /** The jobs a call has still to publish. */
  function Owed(c: Call): seq<nat> {
    match c
    case Checking(_, _, _) => []
    case NeedStatus(_, jobs, _, _, late) => if late then [] else jobs
    case NeedEvent(_, jobs) => jobs
    case Publishing(_, jobs, _, pos) => if pos <= |jobs| then jobs[pos..] else []
  }

  /** The API process dies with the call in flight: its client sees the connection fail. */
  ghost function DoDie(s: State, call: nat): (s': State)
    requires call in s.calls
    ensures OnlyCall(s, s', call)
    ensures s'.ready == s.ready && s'.nextTag == s.nextTag && s'.h.published == s.h.published && s'.h.fails == s.h.fails
    ensures s'.w == s.w
    ensures s'.h.emptied == s.h.emptied
  {
    Abandon(s, call, Owed(s.calls[call]))
  }

  ghost function DoCall(su: Setup, s: State, call: nat, step: ApiStep): (s': State)
    requires CanCall(su, s, call, step)
    ensures OnlyCall(s, s', call)
    ensures step.Publish? ||
      (s'.ready == s.ready && s'.nextTag == s.nextTag && s'.h.published == s.h.published && s'.h.fails == s.h.fails)
    ensures step.Insert? || step.Reset? || step.ResetLate? || step.WriteStatus? || s'.w == s.w
    ensures step.WriteStatus? || s'.h.emptied == s.h.emptied
  {
    match step
    case StartCreate(info, insts) => DoStart(s, call, info, insts)
    case CheckOwner(reply) => DoCheck(s, call, reply)
    case Insert(now, reply) => DoInsert(s, call, now, reply)
    case Reset(ev, jobs, reply) => DoReset(s, call, ev, jobs, reply)
    case ResetLate(ev, jobs, reply) => DoResetLate(s, call, ev, jobs, reply)
    case WriteStatus(reply) => DoWriteStatus(s, call, reply)
    case ReadBack(reply) => DoReadBack(s, call, reply)
    case Publish(reply) => DoPublish(s, call, reply)
    case Finish => DoFinish(s, call)
    case Die => DoDie(s, call)
  }

  // ---------- effects of the workers' steps ----------

  ghost function DoDeliver(s: State, i: nat, tag: nat): (s': State)
    requires i < |s.cons| && tag in s.ready
    ensures OnlyConsumer(s, s', i) && s'.w == s.w && s'.h == s.h
  {
    s.(ready := s.ready - {tag}, cons := s.cons[i := Busy(tag, s.ready[tag], LoadJob)])
  }

  function Bump(fails: map<nat, nat>, id: nat): map<nat, nat> {
    if id in fails then fails[id := fails[id] + 1] else fails
  }

  ghost function DoWork(su: Setup, s: State, i: nat, io: Io): (s': State)
    requires i < |s.cons| && s.cons[i].Busy? && Fits(s.cons[i].pc, io)
    ensures OnlyConsumer(s, s', i)
    ensures s'.ready == s.ready && s'.dlq == s.dlq && s'.nextTag == s.nextTag && s'.h.acked == s.h.acked
    ensures var (w, pc) := Step(s.w, s.cons[i].d.body.job, s.cons[i].pc, io, su.valid);
      s'.w == w && s'.cons[i] == s.cons[i].(pc := pc)
  {
    var c := s.cons[i];
    var (w, pc) := Step(s.w, c.d.body.job, c.pc, io, su.valid);
    s.(w := w, cons := s.cons[i := c.(pc := pc)],
       h := s.h.(fails := if pc.Returned? && pc.err then Bump(s.h.fails, c.d.id) else s.h.fails,
                 emptied := if WritesStatus(c.pc, io) then s.h.emptied - {c.pc.ctx.ev} else s.h.emptied))
  }

  function Release(s: State, i: nat): State
    requires i < |s.cons|
  {
    s.(cons := s.cons[i := Idle])
  }

  ghost function DoAck(s: State, i: nat): (s': State)
    requires i < |s.cons| && !s.cons[i].Idle?
    ensures OnlyConsumer(s, s', i) && s'.w == s.w && s'.h.emptied == s.h.emptied && s'.h.fails == s.h.fails
  {
    Release(s, i).(h := s.h.(acked := s.h.acked + {s.cons[i].d.id}))
  }

  /** Nack without requeue: the queue's dead-letter exchange takes the message. */
  ghost function DoDeadLetter(s: State, i: nat): (s': State)
    requires i < |s.cons| && !s.cons[i].Idle?
    ensures OnlyConsumer(s, s', i) && s'.w == s.w && s'.h.emptied == s.h.emptied && s'.h.fails == s.h.fails
  {
    Release(s, i).(dlq := s.dlq[s.cons[i].tag := s.cons[i].d])
  }

  ghost function DoRepublish(s: State, i: nat, reply: Reply): (s': State)
    requires i < |s.cons| && Failed(s.cons[i])
    ensures OnlyConsumer(s, s', i) && s'.w == s.w && s'.h.emptied == s.h.emptied && s'.h.fails == s.h.fails
  {
    var c := s.cons[i];
    var s' :=
      if reply.Effective()
      then s.(ready := s.ready[s.nextTag := c.d.(headers := Retry.Next(c.d.headers))], nextTag := s.nextTag + 1)
      else s;
    s'.(cons := s.cons[i := if reply.Confirmed? then Republished(c.tag, c.d)
                            else RepublishFailed(c.tag, c.d, c.pc.wrote)])
  }

  ghost function DoAckOld(s: State, i: nat): (s': State)
    requires i < |s.cons|
    ensures OnlyConsumer(s, s', i) && s'.w == s.w && s'.h.emptied == s.h.emptied && s'.h.fails == s.h.fails
  {
    Release(s, i)
  }

  /** The worker dies; the broker redelivers what it had not settled, with the same headers. */
  ghost function DoCrash(s: State, i: nat): (s': State)
    requires i < |s.cons| && !s.cons[i].Idle?
    ensures OnlyConsumer(s, s', i) && s'.w == s.w && s'.h.emptied == s.h.emptied && s'.h.fails == s.h.fails
  {
    Release(s, i).(ready := s.ready[s.cons[i].tag := s.cons[i].d])
  }

  ghost function DoSettle(s: State, i: nat, end: SettleStep): (s': State)
    requires i < |s.cons| && CanSettle(s.cons[i], end)
    ensures OnlyConsumer(s, s', i) && s'.w == s.w && s'.h.emptied == s.h.emptied && s'.h.fails == s.h.fails
  {
    match end
    case Ack => DoAck(s, i)
    case DeadLetter => DoDeadLetter(s, i)
    case Republish(reply) => DoRepublish(s, i, reply)
    case AckOld => DoAckOld(s, i)
    case Crash => DoCrash(s, i)
  }

  ghost function Apply(su: Setup, s: State, a: Action): State
    requires Enabled(su, s, a)
  {
    match a
    case AddInstance(owner) => WithDb(s, InsertInstance(s.w.db, owner))
    case RemoveInstance(inst, _) => WithDb(s, DeleteInstance(s.w.db, inst))
    case Api(call, step) => DoCall(su, s, call, step)
    case Deliver(i, tag) => DoDeliver(s, i, tag)
    case Work(i, io) => DoWork(su, s, i, io)
    case Settle(i, end) => DoSettle(s, i, end)
    case Quit(i) => s.(gone := s.gone + {i})
  }

  // ---------- runs ----------

  /** Every action of the run is possible and allowed where it happens. */
  ghost predicate Legal(su: Setup, run: seq<Action>)
    decreases |run|, 0
  {
    run == [] ||
    (var before, a := run[..|run| - 1], run[|run| - 1];
     Legal(su, before) && Enabled(su, After(su, before), a) && Allowed(su, After(su, before), a))
  }

  ghost function After(su: Setup, run: seq<Action>): State
    requires Legal(su, run)
    decreases |run|, 1
  {
    if run == [] then Init(su) else Apply(su, After(su, run[..|run| - 1]), run[|run| - 1])
  }

  /** One more action. */
  lemma Act(su: Setup, run: seq<Action>, a: Action) returns (run': seq<Action>)
    requires Legal(su, run) && Enabled(su, After(su, run), a) && Allowed(su, After(su, run), a)
    ensures run' == run + [a] && Legal(su, run') && After(su, run') == Apply(su, After(su, run), a)
  {
    hide Enabled, Allowed, Apply;
    run' := run + [a];
    assert run'[..|run'| - 1] == run && run'[|run'| - 1] == a;
  }
}
