/** Runs that show where the guarantees end, among them a torn rollup that is overtaken, a rerun of nothing and a
    message that is delivered twice. */
module Witness {
  import opened Types
  import opened Sql
  import opened Handler
  import opened Machine
  import opened Agreement
  import Conservation
  import OneToken
  import Pins
  import Structure
  import Truth
  import Collector
  import HostKey
  import Retry

  // ---------- driving a run ----------

  lemma ActWork(su: Setup, run: seq<Action>, i: nat, io: Io) returns (run': seq<Action>)
    requires Legal(su, run) && i < |After(su, run).cons| && After(su, run).cons[i].Busy?
    requires Fits(After(su, run).cons[i].pc, io) && ReplyOf(io).Confirmed?
    requires After(su, run).cons[i].pc.Count? ==> (io.AtOnce? <==> !su.torn)
    ensures run' == run + [Work(i, io)] && Legal(su, run') && After(su, run') == DoWork(su, After(su, run), i, io)
  {
    hide DoWork, After, Legal;
    run' := Act(su, run, Work(i, io));
  }

  lemma ActCall(su: Setup, run: seq<Action>, call: nat, step: ApiStep) returns (run': seq<Action>)
    requires Legal(su, run) && CanCall(su, After(su, run), call, step)
    requires ActionReply(Api(call, step)).Confirmed? && !step.Die?
    ensures run' == run + [Api(call, step)] && Legal(su, run')
    ensures After(su, run') == DoCall(su, After(su, run), call, step)
  {
    hide CanCall, DoCall, After, Legal;
    run' := Act(su, run, Api(call, step));
  }

  const KEY := "SHA256:k"
  const OPEN := HostKey.Presented(KEY, Confirmed, true)
  const LUCK := Collector.Luck(1, true, false, 1)

  /** Instances that have no pin yet, or the one host key of these runs. */
  ghost predicate Reachable(db: Db) {
    forall i | i in db.instances :: db.instances[i].pin == None || db.instances[i].pin == Some(KEY)
  }

  /** What serving a message leaves alone. */
  ghost predicate Aside(s: State, s': State, i: nat)
    requires i < |s.cons|
  {
    && |s'.cons| == |s.cons| && s'.cons == s.cons[i := s'.cons[i]]
    && s'.dlq == s.dlq && s'.gone == s.gone && s'.calls == s.calls && s'.w.db.instances.Keys == s.w.db.instances.Keys
    && Reachable(s'.w.db)
  }

  ghost predicate Servable(db: Db, job: nat) {
    && Reachable(db) && job in db.jobs && db.jobs[job].event in db.events && db.jobs[job].inst in db.instances
    && db.events[db.jobs[job].event].info.task == SshTest
  }

  function CtxFor(db: Db, job: nat): Ctx
    requires Servable(db, job)
  {
    Ctx(db.jobs[job].event, db.jobs[job].inst, SshTest, None, db.instances[db.jobs[job].inst].pin)
  }

  lemma ServeDeliver(su: Setup, run: seq<Action>, i: nat, tag: nat) returns (run': seq<Action>)
    requires Legal(su, run) && i < |After(su, run).cons| && After(su, run).cons[i].Idle? && tag in After(su, run).ready
    requires i !in After(su, run).gone
    ensures run <= run' && Legal(su, run') && After(su, run') == DoDeliver(After(su, run), i, tag)
  {
    hide After, Legal, CanCall, DoCall, CanDelete, DoDeliver;
    run' := Act(su, run, Deliver(i, tag));
  }

  lemma ServeLoad(su: Setup, run: seq<Action>, i: nat, tag: nat) returns (run': seq<Action>)
    requires Legal(su, run) && i < |After(su, run).cons| && After(su, run).cons[i].Idle? && tag in After(su, run).ready
    requires i !in After(su, run).gone
    requires Servable(After(su, run).w.db, After(su, run).ready[tag].body.job)
    ensures run <= run' && Legal(su, run')
    ensures var s, s' := After(su, run), After(su, run');
      && Aside(s, s', i) && s'.ready == s.ready - {tag} && s'.w.db == s.w.db && s'.h.emptied == s.h.emptied
      && s'.cons[i] == Busy(tag, s.ready[tag], MarkJob(CtxFor(s.w.db, s.ready[tag].body.job)))
  {
    hide After, Legal, DoConnect, DoExecute;
    run' := ServeDeliver(su, run, i, tag);
    run' := ActWork(su, run', i, Query(Confirmed));
    run' := ActWork(su, run', i, Query(Confirmed));
    run' := ActWork(su, run', i, Query(Confirmed));
  }

  lemma ServeMark(su: Setup, run: seq<Action>, i: nat) returns (run': seq<Action>)
    requires Legal(su, run) && i < |After(su, run).cons| && After(su, run).cons[i].Busy?
    requires After(su, run).cons[i].pc.MarkJob? && Reachable(After(su, run).w.db)
    requires After(su, run).cons[i].d.body.job in After(su, run).w.db.jobs
    requires After(su, run).cons[i].pc.ctx.ev in After(su, run).w.db.events
    ensures run <= run' && Legal(su, run')
    ensures var s, s' := After(su, run), After(su, run');
      var c := s.cons[i];
      && Aside(s, s', i) && s'.ready == s.ready
      && s'.w.db == WriteEventStatus(MarkJobRunning(s.w.db, c.d.body.job), c.pc.ctx.ev, EventRunning)
      && s'.cons[i] == c.(pc := Connect(c.pc.ctx))
  {
    hide After, Legal, DoConnect, DoExecute, WriteEventStatus, MarkJobRunning;
    run' := ActWork(su, run, i, Query(Confirmed));
    run' := ActWork(su, run', i, Query(Confirmed));
    run' := ActWork(su, run', i, Secrets(true));
  }

  lemma ServeConnect(su: Setup, run: seq<Action>, i: nat) returns (run': seq<Action>)
    requires Legal(su, run) && i < |After(su, run).cons| && After(su, run).cons[i].Busy?
    requires After(su, run).cons[i].pc.Connect? && Reachable(After(su, run).w.db)
    requires var ctx := After(su, run).cons[i].pc.ctx; ctx.pin == None || ctx.pin == Some(KEY)
    ensures run <= run' && Legal(su, run')
    ensures var s, s' := After(su, run), After(su, run');
      && Aside(s, s', i) && s'.ready == s.ready
      && s'.w.db.jobs == s.w.db.jobs && s'.w.db.events == s.w.db.events
      && s'.cons[i] == s.cons[i].(pc := Execute(s.cons[i].pc.ctx))
  {
    hide After, Legal;
    run' := ActWork(su, run, i, Ssh(OPEN));
  }

  lemma ServeRun(su: Setup, run: seq<Action>, i: nat) returns (run': seq<Action>)
    requires Legal(su, run) && i < |After(su, run).cons| && After(su, run).cons[i].Busy?
    requires After(su, run).cons[i].pc.Execute? && Reachable(After(su, run).w.db)
    requires var ctx := After(su, run).cons[i].pc.ctx; ctx.task == SshTest && (ctx.pin == None || ctx.pin == Some(KEY))
    ensures run <= run' && Legal(su, run')
    ensures var s, s' := After(su, run), After(su, run');
      && Aside(s, s', i) && s'.ready == s.ready
      && s'.w.db.jobs == s.w.db.jobs && s'.w.db.events == s.w.db.events
      && s'.cons[i] == s.cons[i].(pc := Report(s.cons[i].pc.ctx, JobVerified, 0))
  {
    hide After, Legal;
    run' := ActWork(su, run, i, Script(OPEN, LUCK, false));
  }

  // ---------- one event with two jobs, launched and published ----------

  const OWNER := "o"
  const INFO := EventInfo(OWNER, "n", "l", "l@x", SshTest, None, None, None, None)
  const HOSTS: map<nat, Instance> := map[0 := Instance(OWNER, None), 1 := Instance(OWNER, None)]

  function Launched(status: EventStatus): Db {
    Db(5, HOSTS, map[2 := Event(INFO, {0, 1}, 0, status, 2, 0, 0)],
       map[3 := Job(2, 0, JobQueued, None), 4 := Job(2, 1, JobQueued, None)])
  }

  lemma StartOfRun(su: Setup)
    ensures Legal(su, []) && After(su, []) == Init(su)
  {
  }

  lemma Validate(su: Setup) returns (run: seq<Action>)
    ensures Legal(su, run)
    ensures After(su, run) == WithDb(Init(su), BEFORE).(calls := map[0 := Checking(INFO, [0, 1], 2)])
  {
    hide After, Legal, CanDelete, DoWork, DoSettle, DoInsert, DoReset, DoPublish, DoWriteStatus, DoReadBack;
    StartOfRun(su);
    run := Act(su, [], AddInstance(OWNER));
    run := Act(su, run, AddInstance(OWNER));
    run := ActCall(su, run, 0, StartCreate(INFO, [0, 1]));
    run := ActCall(su, run, 0, CheckOwner(Confirmed));
    run := ActCall(su, run, 0, CheckOwner(Confirmed));
  }

  const BEFORE := Db(2, HOSTS, map[], map[])

  lemma TwoIds()
    ensures JobIds(BEFORE, 2) == [3, 4]
  {
  }

  lemma BothHosts()
    ensures CanCreate(BEFORE, INFO, [0, 1]) && Elements<nat>([0, 1]) == {0, 1}
  {
  }

  lemma TwoJobs()
    ensures CreateEvent(BEFORE, INFO, [0, 1], 0).jobs == Launched(EventQueued).jobs
  {
    hide CreateEvent, JobIds, Elements;
    var jobs := CreateEvent(BEFORE, INFO, [0, 1], 0).jobs;
    forall j ensures j in jobs <==> j == 3 || j == 4 { CreatedRow(j); }
    CreatedRow(3);
    CreatedRow(4);
  }

  lemma CreatedRow(j: nat)
    ensures var jobs := CreateEvent(BEFORE, INFO, [0, 1], 0).jobs;
      && (j in jobs <==> j == 3 || j == 4)
      && (j == 3 ==> jobs[j] == Job(2, 0, JobQueued, None))
      && (j == 4 ==> jobs[j] == Job(2, 1, JobQueued, None))
  {
    hide Elements, JobIds;
    TwoIds();
    assert j in JobIds(BEFORE, 2) <==> j == 3 || j == 4;
  }

  lemma InsertedHere()
    ensures CanCreate(BEFORE, INFO, [0, 1]) && CreateEvent(BEFORE, INFO, [0, 1], 0) == Launched(EventQueued)
    ensures JobIds(BEFORE, 2) == [3, 4]
  {
    hide CanCreate, Elements;
    TwoIds();
    BothHosts();
    TwoJobs();
  }

  lemma Launch(su: Setup) returns (run: seq<Action>)
    ensures Legal(su, run)
    ensures After(su, run) ==
            WithDb(Init(su), Launched(EventRunning)).(calls := map[0 := Publishing(2, [3, 4], SshTest, 0)])
  {
    hide After, Legal, DoReset, DoPublish, DoCheck, DoReadBack, ListsFailed, CreateEvent;
    hide CanCreate, JobIds;
    run := Validate(su);
    InsertedHere();
    run := ActCall(su, run, 0, Insert(0, Confirmed));
    run := ActCall(su, run, 0, WriteStatus(Confirmed));
  }

  function MessageOf(t: nat): Delivery { Delivery(t, JobMessage(3 + t, 2, t, SshTest), Retry.NoHeaders) }

  /** The state right after Create has returned: everything queued, nobody working. */
  ghost predicate Created(su: Setup, s: State) {
    && s.w.db == Launched(EventRunning) && s.ready == map[0 := MessageOf(0), 1 := MessageOf(1)] && s.dlq == map[]
    && s.calls == map[] && s.cons == Init(su).cons && s.gone == {} && s.h.emptied == {}
  }

  lemma PublishBoth(su: Setup) returns (run: seq<Action>)
    ensures Legal(su, run) && Created(su, After(su, run))
  {
    hide After, Legal, DoReset, DoInsert, DoCheck, DoReadBack, ListsFailed;
    run := Launch(su);
    run := ActCall(su, run, 0, Publish(Confirmed));
    run := ActCall(su, run, 0, Publish(Confirmed));
    run := ActCall(su, run, 0, Finish);
  }

  // ---------- the same two jobs, as they are served ----------

  /** What a run of this event shows: the queue, the two jobs' statuses, the event's row and who is busy. */
  datatype View = View(ready: map<nat, Delivery>, s3: JobStatus, s4: JobStatus, row: Event, busy: map<nat, Consumer>) {
    function With(job: nat, status: JobStatus): View {
      if job == 3 then this.(s3 := status) else this.(s4 := status)
    }

    function At(i: nat, c: Consumer): View { this.(busy := busy[i := c]) }
  }

  ghost predicate Rows(db: Db, s3: JobStatus, s4: JobStatus, row: Event) {
    && db.jobs.Keys == {3, 4} && db.instances.Keys == {0, 1} && Reachable(db)
    && db.jobs[3].event == db.jobs[4].event == 2 && db.jobs[3].inst == 0 && db.jobs[4].inst == 1
    && db.jobs[3].status == s3 && db.jobs[4].status == s4
    && db.events == map[2 := row] && row.info == INFO
  }

  ghost predicate Workers(cons: seq<Consumer>, busy: map<nat, Consumer>) {
    forall i | 0 <= i < |cons| :: cons[i] == if i in busy then busy[i] else Idle
  }

  ghost predicate Shows(su: Setup, s: State, v: View) {
    && Rows(s.w.db, v.s3, v.s4, v.row) && s.ready == v.ready && s.calls == map[] && s.dlq == map[] && s.gone == {}
    && |s.cons| == su.consumers && Workers(s.cons, v.busy)
  }

  lemma ShowCreated(su: Setup) returns (run: seq<Action>, v: View)
    ensures Legal(su, run) && Shows(su, After(su, run), v)
    ensures v == View(map[0 := MessageOf(0), 1 := MessageOf(1)], JobQueued, JobQueued, Row(EventRunning, 0), map[])
  {
    hide After, Legal;
    run := PublishBoth(su);
    v := View(map[0 := MessageOf(0), 1 := MessageOf(1)], JobQueued, JobQueued, Row(EventRunning, 0), map[]);
  }

  function Row(status: EventStatus, verified: nat): Event { Event(INFO, {0, 1}, 0, status, 2, verified, 0) }

  /** Deliver message `tag` to consumer `i`, up to the step that marks its job RUNNING. */
  lemma ShowLoad(su: Setup, run: seq<Action>, v: View, i: nat, tag: nat) returns (run': seq<Action>, v': View)
    requires Legal(su, run) && Shows(su, After(su, run), v)
    requires i < su.consumers && i !in v.busy && tag in v.ready && v.ready[tag].body.job in {3, 4}
    ensures run <= run' && Legal(su, run') && Shows(su, After(su, run'), v')
    ensures i in v'.busy && v'.busy[i].Busy? && v'.busy[i].pc.MarkJob?
    ensures v'.busy[i] == Busy(tag, v.ready[tag], v'.busy[i].pc)
    ensures v'.busy[i].pc.ctx.ev == 2 && v'.busy[i].pc.ctx.task == SshTest
    ensures v'.busy[i].pc.ctx.pin == None || v'.busy[i].pc.ctx.pin == Some(KEY)
    ensures v' == v.(ready := v.ready - {tag}).At(i, v'.busy[i])
  {
    hide After, Legal;
    run' := ServeLoad(su, run, i, tag);
    v' := v.(ready := v.ready - {tag}).At(i, After(su, run').cons[i]);
  }

  lemma ShowMark(su: Setup, run: seq<Action>, v: View, i: nat) returns (run': seq<Action>, v': View)
    requires Legal(su, run) && Shows(su, After(su, run), v)
    requires i < su.consumers && i in v.busy && v.busy[i].Busy? && v.busy[i].d.body.job in {3, 4}
    requires v.busy[i].pc.MarkJob? && v.busy[i].pc.ctx.ev == 2
    ensures run <= run' && Legal(su, run') && Shows(su, After(su, run'), v')
    ensures var c := v.busy[i];
      v' == v.With(c.d.body.job, JobRunning).(row := v.row.(status := EventRunning)).At(i, c.(pc := Connect(c.pc.ctx)))
  {
    hide After, Legal;
    run' := ServeMark(su, run, i);
    var c := v.busy[i];
    v' := v.With(c.d.body.job, JobRunning).(row := v.row.(status := EventRunning)).At(i, c.(pc := Connect(c.pc.ctx)));
  }

  lemma ShowRun(su: Setup, run: seq<Action>, v: View, i: nat) returns (run': seq<Action>, v': View)
    requires Legal(su, run) && Shows(su, After(su, run), v)
    requires i < su.consumers && i in v.busy && v.busy[i].Busy? && v.busy[i].pc.Connect?
    requires var ctx := v.busy[i].pc.ctx; ctx.task == SshTest && (ctx.pin == None || ctx.pin == Some(KEY))
    ensures run <= run' && Legal(su, run') && Shows(su, After(su, run'), v')
    ensures v' == v.At(i, v.busy[i].(pc := Report(v.busy[i].pc.ctx, JobVerified, 0)))
  {
    hide After, Legal;
    run' := ServeConnect(su, run, i);
    run' := ServeRun(su, run', i);
    v' := v.At(i, v.busy[i].(pc := Report(v.busy[i].pc.ctx, JobVerified, 0)));
  }

  /** All three: consumer `i` is about to write VERIFIED. */
  lemma ShowServed(su: Setup, run: seq<Action>, v: View, i: nat, tag: nat)
    returns (run': seq<Action>, v': View, ctx: Ctx)
    requires Legal(su, run) && Shows(su, After(su, run), v)
    requires i < su.consumers && i !in v.busy && tag in v.ready && v.ready[tag].body.job in {3, 4}
    ensures run <= run' && Legal(su, run') && Shows(su, After(su, run'), v') && ctx.ev == 2
    ensures v' == v.(ready := v.ready - {tag}).With(v.ready[tag].body.job, JobRunning)
                   .(row := v.row.(status := EventRunning))
                   .At(i, Busy(tag, v.ready[tag], Report(ctx, JobVerified, 0)))
  {
    hide After, Legal, Shows;
    var u;
    run', u := ShowLoad(su, run, v, i, tag);
    ctx := u.busy[i].pc.ctx;
    run', u := ShowMark(su, run', u, i);
    run', v' := ShowRun(su, run', u, i);
  }

  /** One handler step, given its effect on the rows. */
  lemma ShowWork(su: Setup, run: seq<Action>, v: View, i: nat, io: Io, v': View) returns (run': seq<Action>)
    requires Legal(su, run) && Shows(su, After(su, run), v)
    requires i < su.consumers && i in v.busy && v.busy[i].Busy? && Fits(v.busy[i].pc, io)
    requires Allowed(su, After(su, run), Action.Work(i, io))
    requires var (w, pc) := Step(After(su, run).w, v.busy[i].d.body.job, v.busy[i].pc, io, su.valid);
      Rows(w.db, v'.s3, v'.s4, v'.row) && v'.ready == v.ready && v'.busy == v.busy[i := v.busy[i].(pc := pc)]
    ensures run <= run' && Legal(su, run') && Shows(su, After(su, run'), v')
  {
    hide After, Legal, Step, Rows, Allowed, DoWork;
    run' := Act(su, run, Action.Work(i, io));
  }

  lemma RowsResult(db: Db, v: View, job: nat, status: JobStatus, exit: int)
    requires Rows(db, v.s3, v.s4, v.row) && job in {3, 4}
    ensures var v' := v.With(job, status); Rows(WriteJobResult(db, job, status, exit), v'.s3, v'.s4, v'.row)
  {
  }

  lemma ShowReport(su: Setup, run: seq<Action>, v: View, i: nat, reply: Reply) returns (run': seq<Action>, v': View)
    requires Legal(su, run) && Shows(su, After(su, run), v)
    requires i < su.consumers && i in v.busy && v.busy[i].Busy? && v.busy[i].d.body.job in {3, 4}
    requires v.busy[i].pc.Report? && reply.Effective() && (reply.Lost? ==> su.losses)
    ensures run <= run' && Legal(su, run') && Shows(su, After(su, run'), v')
    ensures var c := v.busy[i];
      v' == v.With(c.d.body.job, c.pc.status)
             .At(i, c.(pc := if reply.Confirmed? then Count(c.pc.ctx) else Returned(true, true)))
  {
    hide After, Legal, WriteJobResult, DoConnect, DoExecute, Rows;
    var c := v.busy[i];
    v' := v.With(c.d.body.job, c.pc.status)
           .At(i, c.(pc := if reply.Confirmed? then Count(c.pc.ctx) else Returned(true, true)));
    RowsResult(After(su, run).w.db, v, c.d.body.job, c.pc.status, c.pc.exit);
    run' := ShowWork(su, run, v, i, Query(reply), v');
  }

  // ---------- the rollup ----------

  lemma PairSize(s: set<nat>, three: bool, four: bool)
    requires forall x :: x in s <==> (three && x == 3) || (four && x == 4)
    ensures |s| == (if three then 1 else 0) + (if four then 1 else 0)
  {
    assert s == (if three then {3} else {}) + (if four then {4} else {});
  }

  function Verified(v: View): nat { (if v.s3.JobVerified? then 1 else 0) + (if v.s4.JobVerified? then 1 else 0) }
  function FailedOf(v: View): nat { (if v.s3.JobFailed? then 1 else 0) + (if v.s4.JobFailed? then 1 else 0) }
  function Pending(v: View): nat { (if v.s3.Pending() then 1 else 0) + (if v.s4.Pending() then 1 else 0) }

  lemma JobCounts(db: Db, v: View)
    requires Rows(db, v.s3, v.s4, v.row)
    ensures |JobsOf(db, 2)| == 2 && |JobsIn(db, 2, JobFailed)| == FailedOf(v)
    ensures |JobsIn(db, 2, JobVerified)| == Verified(v) && |PendingJobs(db, 2)| == Pending(v)
  {
    PairSize(JobsOf(db, 2), true, true);
    PairSize(JobsIn(db, 2, JobVerified), v.s3.JobVerified?, v.s4.JobVerified?);
    PairSize(PendingJobs(db, 2), v.s3.Pending(), v.s4.Pending());
    PairSize(JobsIn(db, 2, JobFailed), v.s3.JobFailed?, v.s4.JobFailed?);
  }

  /** The first read of a torn rollup, the second, and the write. */
  lemma ShowRollup(su: Setup, run: seq<Action>, v: View, i: nat) returns (run': seq<Action>, v': View)
    requires Legal(su, run) && Shows(su, After(su, run), v) && su.torn
    requires i < su.consumers && i in v.busy && v.busy[i].Busy? && v.busy[i].pc.RollingUp() && v.busy[i].pc.ctx.ev == 2
    ensures run <= run' && Legal(su, run') && Shows(su, After(su, run'), v')
    ensures var c := v.busy[i];
      match c.pc
      case Count(ctx) => v' == v.At(i, c.(pc := CountPending(ctx, Verified(v), FailedOf(v), 2)))
      case CountPending(ctx, n, f, t) => v' == v.At(i, c.(pc := Roll(ctx, n, f, t, Pending(v))))
      case Roll(ctx, n, f, t, p) =>
        v' == v.(row := v.row.(status := RollupStatus(n, f, t, p), verified := n, failed := f, total := t))
               .At(i, c.(pc := Returned(false, true)))
      case _ => false
  {
    hide After, Legal, DoConnect, DoExecute, Rows, JobsOf, JobsIn, PendingJobs, WriteRollup;
    var c, w := v.busy[i], After(su, run).w;
    JobCounts(w.db, v);
    var pc' := Step(w, c.d.body.job, c.pc, Query(Confirmed), su.valid).1;
    v' := v.At(i, c.(pc := pc'));
    if c.pc.Roll? {
      v' := v'.(row := v.row.(status := RollupStatus(c.pc.verified, c.pc.failed, c.pc.total, c.pc.pending),
                              verified := c.pc.verified, failed := c.pc.failed, total := c.pc.total));
      RowsRollup(w.db, v, v'.row);
    }
    run' := ShowWork(su, run, v, i, Query(Confirmed), v');
  }

  lemma RowsRollup(db: Db, v: View, row: Event)
    requires Rows(db, v.s3, v.s4, v.row)
    requires row == v.row.(status := row.status, verified := row.verified, failed := row.failed, total := row.total)
    ensures Rows(WriteRollup(db, 2, row.status, row.verified, row.failed, row.total), v.s3, v.s4, row)
  {
  }

  lemma ShowAck(su: Setup, run: seq<Action>, v: View, i: nat) returns (run': seq<Action>, v': View)
    requires Legal(su, run) && Shows(su, After(su, run), v)
    requires i < su.consumers && i in v.busy && v.busy[i].Busy? && v.busy[i].pc == Returned(false, true)
    ensures run <= run' && Legal(su, run') && Shows(su, After(su, run'), v') && v' == v.(busy := v.busy - {i})
  {
    hide After, Legal, Rows;
    run' := Act(su, run, Settle(i, Ack));
    v' := v.(busy := v.busy - {i});
  }

  lemma BothRead(su: Setup) returns (run: seq<Action>, v: View, a: Ctx, b: Ctx)
    requires su.torn && su.consumers >= 2
    ensures Legal(su, run) && Shows(su, After(su, run), v) && a.ev == b.ev == 2
    ensures v == View(map[], JobVerified, JobRunning, Row(EventRunning, 0),
                      map[0 := Busy(0, MessageOf(0), CountPending(a, 1, 0, 2)),
                          1 := Busy(1, MessageOf(1), Report(b, JobVerified, 0))])
  {
    hide After, Legal, Shows;
    run, v := ShowCreated(su);
    run, v, a := ShowServed(su, run, v, 0, 0);
    run, v, b := ShowServed(su, run, v, 1, 1);
    run, v := ShowReport(su, run, v, 0, Confirmed);
    run, v := ShowRollup(su, run, v, 0);
  }

  /** Two consumers, the real rollup: the first to finish counts one verified job, then is overtaken by the
      second, and its stale PARTIAL is the last write. */
  lemma StalePartial(su: Setup) returns (run: seq<Action>, v: View)
    requires su.torn && su.consumers >= 2
    ensures Legal(su, run) && Shows(su, After(su, run), v)
    ensures v == View(map[], JobVerified, JobVerified, Row(EventPartial, 1), map[])
  {
    hide After, Legal, Shows;
    var a, b;
    run, v, a, b := BothRead(su);
    run, v := ShowReport(su, run, v, 1, Confirmed);
    run, v := ShowRollup(su, run, v, 0);
    run, v := ShowRollup(su, run, v, 1);
    run, v := ShowRollup(su, run, v, 1);
    run, v := ShowRollup(su, run, v, 1);
    run, v := ShowRollup(su, run, v, 0);
    run, v := ShowAck(su, run, v, 0);
    run, v := ShowAck(su, run, v, 1);
  }

  /** In every quiet state reachable in this setup all jobs are final and event rows agree with them. */
  ghost predicate AlwaysSettles(su: Setup) {
    forall run: seq<Action> | Legal(su, run) && Quiet(After(su, run)) :: Settled(After(su, run))
  }

  /** Exactly which deployments settle: those with an atomic rollup, or with a single consumer. */
  lemma SettlesExactly(su: Setup)
    requires su.FaultFree()
    ensures AlwaysSettles(su) <==> RollupsInTurn(su)
  {
    hide After, Legal, Quiet, Settled;
    if RollupsInTurn(su) {
      forall run: seq<Action> | Legal(su, run) && Quiet(After(su, run)) { FinalAgreement(su, run); }
    } else {
      var run, v := StalePartial(su);
      PartialIsStale(su, After(su, run), v);
    }
  }

  lemma PartialIsStale(su: Setup, s: State, v: View)
    requires Shows(su, s, v) && v == View(map[], JobVerified, JobVerified, Row(EventPartial, 1), map[])
    ensures Quiet(s) && !Settled(s)
  {
    JobCounts(s.w.db, v);
    assert 2 in s.w.db.events;
    hide JobsOf, JobsIn, PendingJobs;
    assert !RowAgrees(s.w.db, s.h.emptied, 2);
  }

  // ---------- a rollup overtaken by a rerun ----------

  /** The connectivity check fails. */
  lemma ShowUnreachable(su: Setup, run: seq<Action>, v: View, i: nat) returns (run': seq<Action>, v': View)
    requires Legal(su, run) && Shows(su, After(su, run), v)
    requires i < su.consumers && i in v.busy && v.busy[i].Busy? && v.busy[i].pc.Connect?
    ensures run <= run' && Legal(su, run') && Shows(su, After(su, run'), v')
    ensures v' == v.At(i, v.busy[i].(pc := Report(v.busy[i].pc.ctx, JobFailed, 1)))
  {
    hide After, Legal, Rows, DoExecute;
    v' := v.At(i, v.busy[i].(pc := Report(v.busy[i].pc.ctx, JobFailed, 1)));
    run' := ShowWork(su, run, v, i, Ssh(HostKey.Unreachable), v');
  }

  lemma RowsRequeue(db: Db, v: View)
    requires Rows(db, v.s3, v.s4, v.row) && !v.s3.JobFailed? && v.s4.JobFailed?
    ensures ListsFailed(db, 2, [4]) && Rows(ResetFailed(db, 2), v.s3, JobQueued, v.row)
  {
    assert JobsIn(db, 2, JobFailed) == {4};
    assert Elements<nat>([4]) == {4};
  }

  lemma RequeuedMessage(db: Db, v: View)
    requires Rows(db, v.s3, v.s4, v.row)
    ensures MessageFor(db, 4, SshTest) == JobMessage(4, 2, 1, SshTest)
  {
  }

  /** RerunFailed up to its read-back, with job 4 failed. */
  lemma ShowRequeue(su: Setup, run: seq<Action>, v: View) returns (run': seq<Action>)
    requires Legal(su, run) && Shows(su, After(su, run), v) && !v.s3.JobFailed? && v.s4.JobFailed?
    ensures run <= run' && Legal(su, run')
    ensures var s, s' := After(su, run), After(su, run');
      && Rows(s'.w.db, v.s3, JobQueued, v.row.(status := EventRunning)) && s'.calls == map[0 := NeedEvent(2, [4])]
      && s'.ready == s.ready && s'.cons == s.cons && s'.dlq == s.dlq && s'.gone == s.gone
  {
    hide After, Legal, Rows, ResetFailed, WriteEventStatus, ListsFailed, Elements;
    RowsRequeue(After(su, run).w.db, v);
    run' := ActCall(su, run, 0, Reset(2, [4], Confirmed));
    RowsStatus(After(su, run').w.db, v.(s4 := JobQueued));
    run' := ActCall(su, run', 0, WriteStatus(Confirmed));
  }

  /** The whole RerunFailed. */
  lemma ShowRerun(su: Setup, run: seq<Action>, v: View) returns (run': seq<Action>, v': View, tag: nat)
    requires Legal(su, run) && Shows(su, After(su, run), v) && !v.s3.JobFailed? && v.s4.JobFailed?
    ensures run <= run' && Legal(su, run') && Shows(su, After(su, run'), v')
    ensures v' == v.(s4 := JobQueued, row := v.row.(status := EventRunning),
                     ready := v.ready[tag := Delivery(tag, JobMessage(4, 2, 1, SshTest), Retry.NoHeaders)])
  {
    hide After, Legal, Rows, ListsFailed, DoInsert, DoReset, MessageFor;
    run' := ShowRequeue(su, run, v);
    tag := After(su, run').nextTag;
    v' := v.(s4 := JobQueued, row := v.row.(status := EventRunning),
             ready := v.ready[tag := Delivery(tag, JobMessage(4, 2, 1, SshTest), Retry.NoHeaders)]);
    RequeuedMessage(After(su, run').w.db, v');
    RowsExist(After(su, run').w.db, v');
    run' := ActCall(su, run', 0, ReadBack(Confirmed));
    run' := ActCall(su, run', 0, Publish(Confirmed));
    run' := ActCall(su, run', 0, Finish);
  }

  lemma RowsExist(db: Db, v: View)
    requires Rows(db, v.s3, v.s4, v.row)
    ensures 2 in db.events && db.events[2].info.task == SshTest
  {
  }

  /** Consumer 0 has read one verified and one failed job and nothing pending, and is about to write PARTIAL;
      then the failed job is rerun. */
  lemma ShowOvertaken(su: Setup) returns (run: seq<Action>, v: View, a: Ctx, tag: nat)
    requires su.torn && su.consumers >= 1
    ensures Legal(su, run) && Shows(su, After(su, run), v) && a.ev == 2
    ensures v.s3 == JobVerified && v.s4 == JobQueued && v.row.status == EventRunning
    ensures v.busy == map[0 := Busy(1, MessageOf(1), Roll(a, 1, 1, 2, 0))]
    ensures tag in v.ready && v.ready[tag].body.job == 4
  {
    hide After, Legal, Shows;
    run, v := ShowHalfDone(su);
    run, v := ShowLoad(su, run, v, 0, 1);
    a := v.busy[0].pc.ctx;
    run, v := ShowMark(su, run, v, 0);
    run, v := ShowUnreachable(su, run, v, 0);
    run, v := ShowReport(su, run, v, 0, Confirmed);
    run, v := ShowRollup(su, run, v, 0);
    run, v := ShowRollup(su, run, v, 0);
    run, v, tag := ShowRerun(su, run, v);
  }

  lemma ShowHalfDone(su: Setup) returns (run: seq<Action>, v: View)
    requires su.consumers >= 1
    ensures Legal(su, run) && Shows(su, After(su, run), v)
    ensures v == View(map[1 := MessageOf(1)], JobVerified, JobQueued, Row(EventRunning, 1), map[])
  {
    hide After, Legal, Shows;
    var a;
    run, v := ShowCreated(su);
    run, v, a := ShowServed(su, run, v, 0, 0);
    run, v := ShowReport(su, run, v, 0, Confirmed);
    run, v := ShowRolled(su, run, v, 0);
    run, v := ShowAck(su, run, v, 0);
  }

  /** In every reachable state an event is terminal with a job pending only inside a rerun's window. */
  ghost predicate AlwaysWindowed(su: Setup) {
    forall run: seq<Action> | Legal(su, run) :: AllWindowed(After(su, run))
  }

  /** The real rollup, one consumer: the stale write leaves PARTIAL on an event with a queued job, and no
      rerun in flight at all. */
  lemma EarlyPartial(su: Setup) returns (run: seq<Action>)
    requires su.torn && su.consumers >= 1
    ensures Legal(su, run) && !AllWindowed(After(su, run))
  {
    hide After, Legal, Shows, AllWindowed;
    var v, a, tag;
    run, v, a, tag := ShowOvertaken(su);
    run, v := ShowRollup(su, run, v, 0);
    PartialTooEarly(su, After(su, run), v);
  }

  lemma PartialTooEarly(su: Setup, s: State, v: View)
    requires Shows(su, s, v) && v.row.status == EventPartial && v.s4 == JobQueued
    ensures !AllWindowed(s)
  {
    JobCounts(s.w.db, v);
    assert 2 in s.w.db.events && 4 in PendingJobs(s.w.db, 2);
    assert !Windowed(s.w.db, s.calls, 2);
  }

  /** Exactly where a terminal status is early only inside a rerun's window: with the atomic rollup. */
  lemma WindowedExactly(su: Setup)
    requires su.FaultFree() && su.consumers >= 1
    ensures AlwaysWindowed(su) <==> !su.torn
  {
    hide After, Legal, AllWindowed;
    if su.torn {
      var run := EarlyPartial(su);
    } else {
      forall run: seq<Action> | Legal(su, run) { EarlyTerminalWindow(su, run); }
    }
  }

  /** In every reachable state an event that is being worked on shows RUNNING. */
  ghost predicate AlwaysShown(su: Setup) {
    forall run: seq<Action> | Legal(su, run) :: AllShown(After(su, run))
  }

  /** The real rollup, two consumers: while the second serves the rerun job, the first still writes PARTIAL. */
  lemma HiddenWork(su: Setup) returns (run: seq<Action>)
    requires su.torn && su.consumers >= 2
    ensures Legal(su, run) && !AllShown(After(su, run))
  {
    hide After, Legal, Shows, AllShown;
    var v, a, tag;
    run, v, a, tag := ShowOvertaken(su);
    run, v := ShowLoad(su, run, v, 1, tag);
    run, v := ShowMark(su, run, v, 1);
    run, v := ShowRollup(su, run, v, 0);
    PartialInHand(su, After(su, run), v);
  }

  lemma PartialInHand(su: Setup, s: State, v: View)
    requires Shows(su, s, v) && v.row.status == EventPartial && su.consumers >= 2
    requires 1 in v.busy && v.busy[1].Busy? && v.busy[1].pc.Connect? && v.busy[1].pc.ctx.ev == 2
    ensures !AllShown(s)
  {
    assert !Shown(s.w.db, s.cons[1]);
  }

  /** Exactly where an event that is being worked on always shows it. */
  lemma ShownExactly(su: Setup)
    requires su.FaultFree()
    ensures AlwaysShown(su) <==> RollupsInTurn(su)
  {
    hide After, Legal, AllShown;
    if RollupsInTurn(su) {
      forall run: seq<Action> | Legal(su, run) { WorkedOnShowsRunning(su, run); }
    } else {
      var run := HiddenWork(su);
    }
  }

  // ---------- a rerun that resets nothing ----------

  /** The whole rollup of one consumer, atomic or torn, with nothing in between. */
  lemma ShowRolled(su: Setup, run: seq<Action>, v: View, i: nat) returns (run': seq<Action>, v': View)
    requires Legal(su, run) && Shows(su, After(su, run), v) && !v.s3.JobFailed? && !v.s4.JobFailed?
    requires i < su.consumers && i in v.busy && v.busy[i].Busy? && v.busy[i].pc.Count? && v.busy[i].pc.ctx.ev == 2
    ensures run <= run' && Legal(su, run') && Shows(su, After(su, run'), v')
    ensures var n := Verified(v);
      v' == v.(row := v.row.(status := RollupStatus(n, 0, 2, Pending(v)), verified := n, failed := 0, total := 2))
             .At(i, v.busy[i].(pc := Returned(false, true)))
  {
    hide After, Legal, Shows;
    if su.torn {
      run', v' := ShowRollup(su, run, v, i);
      run', v' := ShowRollup(su, run', v', i);
      run', v' := ShowRollup(su, run', v', i);
    } else {
      run', v' := ShowAtOnce(su, run, v, i);
    }
  }

  lemma ShowAtOnce(su: Setup, run: seq<Action>, v: View, i: nat) returns (run': seq<Action>, v': View)
    requires Legal(su, run) && Shows(su, After(su, run), v) && !su.torn && !v.s3.JobFailed? && !v.s4.JobFailed?
    requires i < su.consumers && i in v.busy && v.busy[i].Busy? && v.busy[i].pc.Count? && v.busy[i].pc.ctx.ev == 2
    ensures run <= run' && Legal(su, run') && Shows(su, After(su, run'), v')
    ensures var n := Verified(v);
      v' == v.(row := v.row.(status := RollupStatus(n, 0, 2, Pending(v)), verified := n, failed := 0, total := 2))
             .At(i, v.busy[i].(pc := Returned(false, true)))
  {
    hide After, Legal, DoConnect, DoExecute, Rows, JobsOf, JobsIn, PendingJobs, WriteRollup;
    var n, w := Verified(v), After(su, run).w;
    JobCounts(w.db, v);
    v' := v.(row := v.row.(status := RollupStatus(n, 0, 2, Pending(v)), verified := n, failed := 0, total := 2))
           .At(i, v.busy[i].(pc := Returned(false, true)));
    RowsRollup(w.db, v, v'.row);
    run' := ShowWork(su, run, v, i, AtOnce, v');
  }

  /** Consumer 0 serves both messages to the end. */
  lemma ShowCompleted(su: Setup) returns (run: seq<Action>, v: View)
    requires su.consumers >= 1
    ensures Legal(su, run) && Shows(su, After(su, run), v)
    ensures v == View(map[], JobVerified, JobVerified, Row(EventCompleted, 2), map[])
  {
    hide After, Legal, Shows;
    var a;
    run, v := ShowHalfDone(su);
    run, v, a := ShowServed(su, run, v, 0, 1);
    run, v := ShowReport(su, run, v, 0, Confirmed);
    run, v := ShowRolled(su, run, v, 0);
    run, v := ShowAck(su, run, v, 0);
  }

  lemma RowsReset(db: Db, v: View)
    requires Rows(db, v.s3, v.s4, v.row) && !v.s3.JobFailed? && !v.s4.JobFailed?
    ensures ListsFailed(db, 2, []) && Rows(ResetFailed(db, 2), v.s3, v.s4, v.row)
  {
    JobCounts(db, v);
    assert JobsIn(db, 2, JobFailed) == {};
  }

  lemma RowsStatus(db: Db, v: View)
    requires Rows(db, v.s3, v.s4, v.row)
    ensures Rows(WriteEventStatus(db, 2, EventRunning), v.s3, v.s4, v.row.(status := EventRunning))
  {
  }

  /** RerunFailed's two UPDATEs and its read-back, when no job has failed. */
  lemma ShowEmptyReset(su: Setup, run: seq<Action>, v: View) returns (run': seq<Action>)
    requires Legal(su, run) && Shows(su, After(su, run), v) && v.ready == map[] && v.busy == map[]
    requires v.s3 == v.s4 == JobVerified
    ensures Legal(su, run')
    ensures var s := After(su, run');
      && Rows(s.w.db, v.s3, v.s4, v.row.(status := EventRunning)) && s.ready == map[] && Workers(s.cons, map[])
      && s.calls == map[0 := NeedEvent(2, [])]
  {
    hide After, Legal, Rows, ResetFailed, WriteEventStatus, ListsFailed, Elements;
    RowsReset(After(su, run).w.db, v);
    run' := ActCall(su, run, 0, Reset(2, [], Confirmed));
    RowsStatus(After(su, run').w.db, v);
    run' := ActCall(su, run', 0, WriteStatus(Confirmed));
  }

  /** RerunFailed on the completed event: nothing is reset or published, and RUNNING stays behind. */
  lemma EmptyRerunLeavesRunning(su: Setup) returns (run: seq<Action>)
    requires su.consumers >= 1
    ensures Legal(su, run) && Quiet(After(su, run))
    ensures var db := After(su, run).w.db;
      2 in db.events && db.events[2].status == EventRunning && StatusNow(db, 2) == EventCompleted
  {
    hide After, Legal, Rows, ListsFailed, StatusNow, DoPublish, DoInsert, DoReset;
    var v;
    run, v := ShowCompleted(su);
    run := ShowEmptyReset(su, run, v);
    RunningRow(After(su, run).w.db, v);
    run := ActCall(su, run, 0, ReadBack(Confirmed));
    run := ActCall(su, run, 0, Finish);
  }

  lemma RunningRow(db: Db, v: View)
    requires v.s3 == v.s4 == JobVerified && Rows(db, v.s3, v.s4, v.row.(status := EventRunning))
    ensures 2 in db.events && db.events[2].status == EventRunning && StatusNow(db, 2) == EventCompleted
  {
    JobCounts(db, v.(row := v.row.(status := EventRunning)));
    hide JobsOf, JobsIn, PendingJobs;
  }

  // ---------- a message that is delivered twice ----------

  /** No step of any run in this setup changes a VERIFIED row. */
  ghost predicate AlwaysAbsorbing(su: Setup) {
    forall run: seq<Action>, k: nat | Legal(su, run) && k <= |run| && Legal(su, run[..k]) ::
      OneToken.StaysVerified(After(su, run[..k]).w.db, After(su, run).w.db)
  }

  /** Back to the queue with job 3 VERIFIED: after a crash before the ack, after an error of the rollup, or
      after a lost reply to the write of the result. */
  lemma Redelivered(su: Setup) returns (run: seq<Action>, v: View, tag: nat)
    requires su.consumers >= 1 && su.torn && !su.FaultFree()
    ensures Legal(su, run) && Shows(su, After(su, run), v) && tag in v.ready && tag != 1
    ensures v == View(map[1 := MessageOf(1), tag := v.ready[tag]], JobVerified, JobQueued, Row(EventRunning, 0), map[])
    ensures v.ready[tag].body.job == 3
  {
    hide After, Legal, Shows;
    var a;
    run, v := ShowCreated(su);
    run, v, a := ShowServed(su, run, v, 0, 0);
    run, v := ShowReport(su, run, v, 0, if su.losses then Lost else Confirmed);
    if su.losses {
      run, v, tag := ShowRetry(su, run, v, 0);
    } else if su.crashes {
      run, v := ShowCrash(su, run, v, 0);
      tag := 0;
    } else {
      run, v := ShowRefusedRollup(su, run, v, 0);
      run, v, tag := ShowRetry(su, run, v, 0);
    }
  }

  lemma ShowCrash(su: Setup, run: seq<Action>, v: View, i: nat) returns (run': seq<Action>, v': View)
    requires Legal(su, run) && Shows(su, After(su, run), v) && su.crashes
    requires i < su.consumers && i in v.busy && v.busy[i].Busy?
    ensures run <= run' && Legal(su, run') && Shows(su, After(su, run'), v')
    ensures v' == v.(busy := v.busy - {i}, ready := v.ready[v.busy[i].tag := v.busy[i].d])
  {
    hide After, Legal, Rows;
    run' := Act(su, run, Settle(i, Crash));
    v' := v.(busy := v.busy - {i}, ready := v.ready[v.busy[i].tag := v.busy[i].d]);
  }

  lemma ShowRefusedRollup(su: Setup, run: seq<Action>, v: View, i: nat) returns (run': seq<Action>, v': View)
    requires Legal(su, run) && Shows(su, After(su, run), v) && su.refusals && su.torn
    requires i < su.consumers && i in v.busy && v.busy[i].Busy? && v.busy[i].pc.Count?
    ensures run <= run' && Legal(su, run') && Shows(su, After(su, run'), v')
    ensures v' == v.At(i, v.busy[i].(pc := Returned(true, true)))
  {
    hide After, Legal, Rows, DoConnect, DoExecute;
    v' := v.At(i, v.busy[i].(pc := Returned(true, true)));
    run' := ShowWork(su, run, v, i, Query(Refused), v');
  }

  lemma ShowRetry(su: Setup, run: seq<Action>, v: View, i: nat) returns (run': seq<Action>, v': View, tag: nat)
    requires Legal(su, run) && Shows(su, After(su, run), v)
    requires i < su.consumers && i in v.busy && v.busy[i].Busy? && v.busy[i].pc == Returned(true, true)
    requires v.busy[i].d.headers.NoHeaders?
    ensures run <= run' && Legal(su, run') && Shows(su, After(su, run'), v') && tag !in v.ready
    ensures var d := v.busy[i].d;
      v' == v.(busy := v.busy - {i}, ready := v.ready[tag := d.(headers := Retry.Next(d.headers))])
  {
    hide After, Legal, Rows, Structure.References, Structure.RowsOk, Structure.ReadsOk, CanCall, DoCall, DoWork;
    var d := v.busy[i].d;
    tag := After(su, run).nextTag;
    Structure.ReachableStructured(su, run);
    run' := Act(su, run, Settle(i, Republish(Confirmed)));
    run' := Act(su, run', Settle(i, AckOld));
    v' := v.(busy := v.busy - {i}, ready := v.ready[tag := d.(headers := Retry.Next(d.headers))]);
  }

  /** With the real rollup, VERIFIED is for good exactly in runs without faults: any refused call, lost
      reply or crash lets a message come back and re-run its finished job. */
  lemma AbsorbingExactly(su: Setup)
    requires su.consumers >= 1 && su.torn
    ensures AlwaysAbsorbing(su) <==> su.FaultFree()
  {
    hide After, Legal, Shows, OneToken.StaysVerified;
    if su.FaultFree() {
      forall run: seq<Action>, k: nat | Legal(su, run) && k <= |run| && Legal(su, run[..k]) {
        OneToken.VerifiedIsAbsorbing(su, run, k);
      }
    } else {
      var run, v, tag := Redelivered(su);
      var again, u := ShowLoad(su, run, v, 0, tag);
      again, u := ShowMark(su, again, u, 0);
      assert again[..|run|] == run;
      MarkedAgain(su, After(su, run), v, After(su, again), u);
    }
  }

  lemma MarkedAgain(su: Setup, s: State, v: View, s': State, v': View)
    requires Shows(su, s, v) && Shows(su, s', v') && v.s3 == JobVerified && v'.s3 == JobRunning
    ensures !OneToken.StaysVerified(s.w.db, s'.w.db)
  {
    assert 3 in s.w.db.jobs && s.w.db.jobs[3].status.JobVerified?;
  }

  // ---------- a completed event whose job runs again ----------

  /** In every reachable state a COMPLETED event has all its jobs VERIFIED. */
  ghost predicate AlwaysTruthful(su: Setup) {
    forall run: seq<Action>, e: nat |
      Legal(su, run) && e in After(su, run).w.db.events && After(su, run).w.db.events[e].status.EventCompleted? ::
      Truth.AllVerified(After(su, run).w.db, e)
  }

  /** The handler's first write alone: its job is RUNNING, the event's status is as it was. */
  lemma ShowMarkJob(su: Setup, run: seq<Action>, v: View, i: nat) returns (run': seq<Action>, v': View)
    requires Legal(su, run) && Shows(su, After(su, run), v)
    requires i < su.consumers && i in v.busy && v.busy[i].Busy? && v.busy[i].d.body.job in {3, 4}
    requires v.busy[i].pc.MarkJob?
    ensures run <= run' && Legal(su, run') && Shows(su, After(su, run'), v')
    ensures var c := v.busy[i]; v' == v.With(c.d.body.job, JobRunning).At(i, c.(pc := MarkEvent(c.pc.ctx)))
  {
    hide After, Legal, Rows, MarkJobRunning, DoConnect, DoExecute;
    var c := v.busy[i];
    v' := v.With(c.d.body.job, JobRunning).At(i, c.(pc := MarkEvent(c.pc.ctx)));
    RowsMarked(After(su, run).w.db, v, c.d.body.job);
    run' := ShowWork(su, run, v, i, Query(Confirmed), v');
  }

  lemma RowsMarked(db: Db, v: View, job: nat)
    requires Rows(db, v.s3, v.s4, v.row) && job in {3, 4}
    ensures var v' := v.With(job, JobRunning); Rows(MarkJobRunning(db, job), v'.s3, v'.s4, v'.row)
  {
  }

  /** The other job's message is served while the finished one's waits again; then that one is delivered. */
  lemma CompletedThenRunning(su: Setup) returns (run: seq<Action>, v: View)
    requires su.consumers >= 1 && su.torn && !su.FaultFree()
    ensures Legal(su, run) && Shows(su, After(su, run), v)
    ensures v.s3 == JobRunning && v.row == Row(EventCompleted, 2)
  {
    hide After, Legal, Shows;
    var tag, a;
    run, v, tag := Redelivered(su);
    run, v, a := ShowServed(su, run, v, 0, 1);
    run, v := ShowReport(su, run, v, 0, Confirmed);
    run, v := ShowRolled(su, run, v, 0);
    run, v := ShowAck(su, run, v, 0);
    run, v := ShowLoad(su, run, v, 0, tag);
    run, v := ShowMarkJob(su, run, v, 0);
  }

  lemma RunningAgain(su: Setup, s: State, v: View)
    requires Shows(su, s, v) && v.s3 == JobRunning && v.row.status == EventCompleted
    ensures 2 in s.w.db.events && s.w.db.events[2].status.EventCompleted? && !Truth.AllVerified(s.w.db, 2)
  {
    assert 3 in s.w.db.jobs && s.w.db.jobs[3].event == 2;
  }

  /** With the real rollup, COMPLETED can be trusted at every moment exactly in runs without faults. */
  lemma TruthfulExactly(su: Setup)
    requires su.consumers >= 1 && su.torn
    ensures AlwaysTruthful(su) <==> su.FaultFree()
  {
    hide After, Legal, Shows, Truth.AllVerified;
    if su.FaultFree() {
      forall run: seq<Action> | Legal(su, run) ensures Truth.Truthful(After(su, run)) {
        Truth.CompletedIsTruthful(su, run);
      }
    } else {
      var run, v := CompletedThenRunning(su);
      RunningAgain(su, After(su, run), v);
    }
  }

  // ---------- a second key in one handler ----------

  const OTHER := HostKey.Presented("SHA256:other", Confirmed, true)

  /** Whatever run, a pinned instance's other key is turned away. */
  ghost predicate AlwaysRejects(su: Setup) {
    forall run: seq<Action>, a: Action, inst: nat |
      Legal(su, run) && Pins.OtherKeyShown(After(su, run), a, inst) && Allowed(su, After(su, run), a) ::
      !Pins.Accepts(After(su, run), a)
  }

  /** One handler is enough: its connectivity check pins the first key, and its script connection, still from
      the same snapshot, takes another one and verifies the job. */
  lemma SecondKeyAccepted(su: Setup) returns (run: seq<Action>, a: Action)
    requires su.consumers >= 1
    ensures Legal(su, run) && Pins.OtherKeyShown(After(su, run), a, 0) && Allowed(su, After(su, run), a)
    ensures Pins.Accepts(After(su, run), a)
    ensures Enabled(su, After(su, run), a)
    ensures var s' := Apply(su, After(su, run), a);
      |s'.cons| > 0 && s'.cons[0].Busy? && s'.cons[0].pc.Report? && s'.cons[0].pc.status == JobVerified
  {
    hide After, Legal;
    run := ToFirstPin(su);
    a := Action.Work(0, Script(OTHER, LUCK, false));
  }

  lemma ToFirstPin(su: Setup) returns (run: seq<Action>)
    requires su.consumers >= 1
    ensures Legal(su, run)
    ensures var s := After(su, run);
      && |s.cons| > 0 && s.cons[0].Busy? && s.cons[0].pc == Execute(Ctx(2, 0, SshTest, None, None))
      && Pins.Pinned(s, 0, KEY)
  {
    hide After, Legal, WriteEventStatus, MarkJobRunning;
    run := PublishBoth(su);
    run := ServeLoad(su, run, 0, 0);
    run := ServeMark(su, run, 0);
    run := ActWork(su, run, 0, Ssh(OPEN));
  }

  /** A key other than the stored one is turned away in every run exactly where nobody works: a deployment
      with any consumer at all has a run, free of faults, in which one is accepted. */
  lemma RejectsExactly(su: Setup)
    ensures AlwaysRejects(su) <==> su.consumers == 0
  {
    hide After, Legal, Allowed, Pins.Accepts;
    if su.consumers == 0 {
      forall run: seq<Action>, a: Action, inst: nat | Legal(su, run)
        ensures !Pins.OtherKeyShown(After(su, run), a, inst)
      {
        Structure.ReachableStructured(su, run);
      }
    } else {
      var run, a := SecondKeyAccepted(su);
    }
  }

  // ---------- duplicates and lost counts ----------

  /** No reachable state has two copies of one message. */
  ghost predicate NeverDuplicated(su: Setup) {
    forall run: seq<Action> | Legal(su, run) :: !Conservation.Duplicated(After(su, run))
  }

  /** In every reachable state the headers count the failed runs. */
  ghost predicate AlwaysCounted(su: Setup) {
    forall run: seq<Action> | Legal(su, run) :: Conservation.HeadersCount(After(su, run))
  }

  /** Message 0 delivered to consumer 0, whose first query ends in an error. */
  lemma FailedAtOnce(su: Setup, reply: Reply) returns (run: seq<Action>)
    requires su.consumers >= 1 && !reply.Confirmed?
    requires (reply.Refused? ==> su.refusals) && (reply.Lost? ==> su.losses)
    ensures Legal(su, run)
    ensures var s := After(su, run);
      |s.cons| > 0 && s.cons[0] == Busy(0, MessageOf(0), Returned(true, false)) && 0 in s.h.fails && s.h.fails[0] >= 1
      && Structure.TagsOk(s)
  {
    hide After, Legal, Structure.TagsOk, Structure.References, Conservation.Conserved;
    run := PublishBoth(su);
    Conservation.MessagesAreConserved(su, run);
    HasCount(After(su, run));
    run := Act(su, run, Deliver(0, 0));
    run := Act(su, run, Action.Work(0, Query(reply)));
    Structure.ReachableStructured(su, run);
  }

  lemma HasCount(s: State)
    requires Conservation.Conserved(s) && 0 in s.ready && s.ready[0].id == 0
    ensures 0 in s.h.fails
  {
    hide Conservation.HasCopy;
    assert Conservation.Message(s, Conservation.Ready(0)).Some?;
  }

  /** A crash between failure and republish: the message is back with a count that misses the failure. */
  lemma MissedCount(su: Setup) returns (run: seq<Action>)
    requires su.consumers >= 1 && !Conservation.Countable(su)
    ensures Legal(su, run) && !Conservation.HeadersCount(After(su, run))
  {
    hide After, Legal;
    run := FailedAtOnce(su, if su.refusals then Refused else Lost);
    run := Act(su, run, Settle(0, Crash));
    assert Conservation.Live(After(su, run), Conservation.Ready(0));
    assert Conservation.Message(After(su, run), Conservation.Ready(0)) == Some(MessageOf(0));
  }

  /** Exactly where the retry header can be trusted: without crashes, or where nothing but crashes goes wrong. */
  lemma CountsExactly(su: Setup)
    requires su.consumers >= 1
    ensures AlwaysCounted(su) <==> Conservation.Countable(su)
  {
    hide After, Legal, Conservation.HeadersCount, Conservation.Counted;
    if Conservation.Countable(su) {
      forall run: seq<Action> | Legal(su, run) ensures Conservation.HeadersCount(After(su, run)) {
        var home := Conservation.CountsAreExact(su, run);
        Conservation.CountedHeaders(After(su, run), home);
      }
    } else {
      var run := MissedCount(su);
    }
  }

  /** Two copies: a republish whose reply is lost, or a crash between a republish and its ack. */
  lemma TwoCopies(su: Setup) returns (run: seq<Action>)
    requires su.consumers >= 1 && !Conservation.Single(su)
    ensures Legal(su, run) && Conservation.Duplicated(After(su, run))
  {
    hide After, Legal, Structure.TagsOk;
    run := FailedAtOnce(su, if su.losses then Lost else Refused);
    var s := After(su, run);
    if su.losses {
      run := Act(su, run, Settle(0, Republish(Lost)));
      TwoPlaces(After(su, run), Conservation.Held(0), Conservation.Ready(s.nextTag));
    } else {
      FreshTag(s);
      run := Act(su, run, Settle(0, Republish(Confirmed)));
      run := Act(su, run, Settle(0, Crash));
      TwoPlaces(After(su, run), Conservation.Ready(0), Conservation.Ready(s.nextTag));
    }
  }

  lemma FreshTag(s: State)
    requires Structure.TagsOk(s) && |s.cons| > 0 && s.cons[0].Busy? && s.cons[0].tag == 0
    ensures s.nextTag != 0
  {
  }

  lemma TwoPlaces(s: State, p: Conservation.Place, q: Conservation.Place)
    requires p != q && !Conservation.Superseded(s, p) && !Conservation.Superseded(s, q)
    requires Conservation.Message(s, p).Some? && Conservation.Message(s, q).Some?
    requires Conservation.Message(s, p).value.id == Conservation.Message(s, q).value.id
    ensures Conservation.Duplicated(s)
  {
    hide Conservation.Message, Conservation.Superseded;
  }

  /** Exactly where a message is never duplicated: no reply is lost, and crashes do not meet refused calls. */
  lemma SingleExactly(su: Setup)
    requires su.consumers >= 1
    ensures NeverDuplicated(su) <==> Conservation.Single(su)
  {
    hide After, Legal, Conservation.Duplicated, Conservation.Exact;
    if Conservation.Single(su) {
      forall run: seq<Action> | Legal(su, run) ensures !Conservation.Duplicated(After(su, run)) {
        var home := Conservation.CopiesAreExact(su, run);
        Conservation.ExactIsSingle(After(su, run), home);
      }
    } else {
      var run := TwoCopies(su);
    }
  }
}
