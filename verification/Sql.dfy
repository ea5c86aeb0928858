/** The tables the protocol lives in, and the effect of each SQL statement on them.
    A statement that matches no row leaves the database as it was, as in Postgres. */
module Sql {
  import opened Types

  datatype Instance = Instance(owner: string, pin: Option<string>)

  /** The columns of an event row that no statement ever updates. */
  datatype EventInfo = EventInfo(
    owner: string, name: string, launcherName: string, launcherEmail: string,
    task: TaskType, config: Option<string>, checksum: Option<Digest>,
    related: Option<nat>, scope: Option<string>)

  /** `targets` are the event's rows of event_instances, whose primary key makes them a set. */
  datatype Event = Event(
    info: EventInfo, targets: set<nat>, createdAt: int,
    status: EventStatus, total: nat, verified: nat, failed: nat)

  datatype Job = Job(event: nat, inst: nat, status: JobStatus, exit: Option<int>)

  /** `next` stands for gen_random_uuid(): it yields ids that were never used before. */
  datatype Db = Db(
    next: nat,
    instances: map<nat, Instance>,
    events: map<nat, Event>,
    jobs: map<nat, Job>)

  const EMPTY := Db(0, map[], map[], map[])

  /** A job row's foreign keys: its event exists and has the job's instance among its targets. */
  predicate Linked(db: Db, job: Job) {
    job.event in db.events && job.inst in db.events[job.event].targets
  }

  /** Primary and foreign keys, and ids handed out in order. */
  ghost predicate WellFormed(db: Db) {
    && (forall i | i in db.instances :: i < db.next)
    && (forall e | e in db.events :: e < db.next && db.events[e].targets <= db.instances.Keys)
    && (forall j | j in db.jobs :: j < db.next && Linked(db, db.jobs[j]))
  }

  // ---------- instances ----------

  function InsertInstance(db: Db, owner: string): Db {
    db.(next := db.next + 1, instances := db.instances[db.next := Instance(owner, None)])
  }

  predicate Referenced(db: Db, inst: nat) {
    || (exists e | e in db.events :: inst in db.events[e].targets)
    || (exists j | j in db.jobs :: db.jobs[j].inst == inst)
  }

  /** DELETE ... WHERE id AND owner_id; a row that is still referenced is refused. */
  predicate CanDelete(db: Db, inst: nat, owner: string) {
    inst in db.instances && db.instances[inst].owner == owner && !Referenced(db, inst)
  }

  function DeleteInstance(db: Db, inst: nat): Db {
    db.(instances := db.instances - {inst})
  }

  /** The guarded UPDATE of the host key column; it does not report how many rows it hit. */
  function PinHostKey(db: Db, inst: nat, key: string): Db {
    if inst in db.instances && (db.instances[inst].pin == None || db.instances[inst].pin == Some(key))
    then db.(instances := db.instances[inst := db.instances[inst].(pin := Some(key))])
    else db
  }

  // ---------- events and jobs ----------

  /** The keys of event_instances: no target twice, and every target exists. */
  ghost predicate TargetsFit(db: Db, insts: seq<nat>) {
    Distinct(insts) && forall i | i in insts :: i in db.instances
  }

  /** No key refuses the transaction: the targets fit, and the related event, if any, exists. */
  ghost predicate CanCreate(db: Db, info: EventInfo, insts: seq<nat>) {
    TargetsFit(db, insts) && (info.related.Some? ==> info.related.value in db.events)
  }

  /** The ids a transaction gives to `n` new jobs, right after its event's id. */
  function JobIds(db: Db, n: nat): (ids: seq<nat>)
    ensures |ids| == n && forall k | 0 <= k < n :: ids[k] == db.next + 1 + k
    ensures forall j | j in ids :: db.next < j <= db.next + n && ids[j - db.next - 1] == j
  {
    seq(n, k => db.next + 1 + k)
  }

  /** The committed effect of CreateEventWithJobs: one event, one link and one job per target. */
  function CreateEvent(db: Db, info: EventInfo, insts: seq<nat>, now: int): Db {
    var ev := db.next;
    db.(next := ev + 1 + |insts|,
        events := db.events[ev := Event(info, Elements(insts), now, EventQueued, |insts|, 0, 0)],
        jobs := db.jobs + map j | j in JobIds(db, |insts|) :: Job(ev, insts[j - ev - 1], JobQueued, None))
  }

  /** What INSERT and UPDATE return of a job's row. */
  datatype JobRow = JobRow(id: nat, event: nat, inst: nat)

  function Ids(rows: seq<JobRow>): (ids: seq<nat>)
    ensures |ids| == |rows|
  {
    seq(|rows|, k requires 0 <= k < |rows| => rows[k].id)
  }

  /** The rows returned for the jobs of a new event `ev`. */
  function NewRows(ev: nat, insts: seq<nat>): (rows: seq<JobRow>)
    ensures |rows| == |insts|
  {
    seq(|insts|, k requires 0 <= k < |insts| => JobRow(ev + 1 + k, ev, insts[k]))
  }

  /** The table has these rows, whatever their status now. */
  ghost predicate Carries(db: Db, rows: seq<JobRow>) {
    forall k | 0 <= k < |rows| ::
      rows[k].id in db.jobs && db.jobs[rows[k].id].event == rows[k].event && db.jobs[rows[k].id].inst == rows[k].inst
  }

  function MarkJobRunning(db: Db, job: nat): (r: Db)
    ensures r.events == db.events && r.instances == db.instances
  {
    if job in db.jobs then db.(jobs := db.jobs[job := db.jobs[job].(status := JobRunning)]) else db
  }

  function WriteJobResult(db: Db, job: nat, status: JobStatus, exit: int): (r: Db)
    ensures r.events == db.events && r.instances == db.instances
  {
    if job in db.jobs
    then db.(jobs := db.jobs[job := db.jobs[job].(status := status, exit := Some(exit))])
    else db
  }

  function WriteEventStatus(db: Db, ev: nat, status: EventStatus): (r: Db)
    ensures r.jobs == db.jobs && r.instances == db.instances && r.events.Keys == db.events.Keys
  {
    if ev in db.events then db.(events := db.events[ev := db.events[ev].(status := status)]) else db
  }

  function WriteRollup(db: Db, ev: nat, status: EventStatus, verified: nat, failed: nat, total: nat): (r: Db)
    ensures r.jobs == db.jobs && r.instances == db.instances && r.events.Keys == db.events.Keys
  {
    if ev in db.events
    then db.(events := db.events[ev :=
               db.events[ev].(status := status, verified := verified, failed := failed, total := total)])
    else db
  }

  function JobsOf(db: Db, ev: nat): set<nat> {
    set j | j in db.jobs && db.jobs[j].event == ev
  }

  function JobsIn(db: Db, ev: nat, status: JobStatus): set<nat> {
    set j | j in db.jobs && db.jobs[j].event == ev && db.jobs[j].status == status
  }

  function PendingJobs(db: Db, ev: nat): set<nat> {
    set j | j in db.jobs && db.jobs[j].event == ev && db.jobs[j].status.Pending()
  }

  /** The status RollupEvent derives from its two reads. */
  function RollupStatus(verified: nat, failed: nat, total: nat, pending: nat): EventStatus {
    if pending != 0 then EventRunning
    else if verified == total then EventCompleted
    else if failed == total then EventFailed
    else EventPartial
  }

  /** What RollupEvent writes when nothing happens between its statements. */
  function RollupAtOnce(db: Db, ev: nat): (r: Db)
    ensures r.jobs == db.jobs && r.instances == db.instances && r.events.Keys == db.events.Keys
  {
    var v, f, t := |JobsIn(db, ev, JobVerified)|, |JobsIn(db, ev, JobFailed)|, |JobsOf(db, ev)|;
    WriteRollup(db, ev, RollupStatus(v, f, t, |PendingJobs(db, ev)|), v, f, t)
  }

  /** UPDATE jobs ... WHERE event_id AND status = FAILED. */
  function ResetFailed(db: Db, ev: nat): (r: Db)
    ensures r.events == db.events && r.instances == db.instances
  {
    db.(jobs := map j | j in db.jobs ::
          if db.jobs[j].event == ev && db.jobs[j].status == JobFailed
          then db.jobs[j].(status := JobQueued, exit := None) else db.jobs[j])
  }

  // ---------- what every statement keeps ----------

  /** No row of jobs or events disappears or moves, no event gains a job after its creation, and no
      instance changes owner or loses its pin while it exists. */
  ghost predicate Grows(db: Db, db': Db) {
    && db.next <= db'.next
    && (forall j | j in db.jobs ::
          j in db'.jobs && db'.jobs[j].event == db.jobs[j].event && db'.jobs[j].inst == db.jobs[j].inst)
    && (forall j | j in db'.jobs && j !in db.jobs :: db.next <= j && db'.jobs[j].event !in db.events)
    && (forall e | e in db.events ::
          e in db'.events && db'.events[e].info == db.events[e].info && db'.events[e].targets == db.events[e].targets)
    && (forall i | i in db.instances && i in db'.instances ::
          db'.instances[i].owner == db.instances[i].owner
          && (db.instances[i].pin.Some? ==> db'.instances[i].pin == db.instances[i].pin))
    && (forall i | i in db'.instances && i !in db.instances :: db.next <= i)
  }

  lemma JobsOfStable(db: Db, db': Db, ev: nat)
    requires Grows(db, db') && ev in db.events
    ensures JobsOf(db', ev) == JobsOf(db, ev)
  {
  }

  lemma SubsetSize<T>(a: set<T>, b: set<T>)
    requires a <= b
    ensures |a| <= |b| && (|a| == |b| ==> a == b)
  {
    assert b == a + (b - a);
    assert |b| == |a| + |b - a|;
  }

  /** The three counts of one event add up, and what it means for them to be equal. */
  lemma Counts(db: Db, ev: nat)
    ensures |JobsIn(db, ev, JobVerified)| + |JobsIn(db, ev, JobFailed)| + |PendingJobs(db, ev)| == |JobsOf(db, ev)|
    ensures |JobsIn(db, ev, JobVerified)| == |JobsOf(db, ev)| ==> JobsIn(db, ev, JobVerified) == JobsOf(db, ev)
  {
    var v, f, p := JobsIn(db, ev, JobVerified), JobsIn(db, ev, JobFailed), PendingJobs(db, ev);
    assert v !! f && (v + f) !! p;
    assert JobsOf(db, ev) == v + f + p;
    SubsetSize(v, JobsOf(db, ev));
  }

  ghost predicate Keeps(db: Db, db': Db) { WellFormed(db') && Grows(db, db') }

  lemma MarkKeeps(db: Db, id: nat)
    requires WellFormed(db)
    ensures Keeps(db, MarkJobRunning(db, id))
  {
  }

  lemma ResultKeeps(db: Db, id: nat, status: JobStatus, exit: int)
    requires WellFormed(db)
    ensures Keeps(db, WriteJobResult(db, id, status, exit))
  {
  }

  lemma StatusKeeps(db: Db, id: nat, st: EventStatus)
    requires WellFormed(db)
    ensures Keeps(db, WriteEventStatus(db, id, st))
  {
  }

  lemma RollupKeeps(db: Db, id: nat, st: EventStatus, v: nat, f: nat, t: nat)
    requires WellFormed(db)
    ensures Keeps(db, WriteRollup(db, id, st, v, f, t))
  {
  }

  lemma ResetKeeps(db: Db, id: nat)
    requires WellFormed(db)
    ensures Keeps(db, ResetFailed(db, id))
  {
  }

  lemma PinKeeps(db: Db, id: nat, key: string)
    requires WellFormed(db)
    ensures Keeps(db, PinHostKey(db, id, key))
  {
  }

  lemma AddKeeps(db: Db, owner: string)
    requires WellFormed(db)
    ensures Keeps(db, InsertInstance(db, owner))
  {
  }

  lemma DeleteKeeps(db: Db, inst: nat, owner: string)
    requires WellFormed(db) && CanDelete(db, inst, owner)
    ensures Keeps(db, DeleteInstance(db, inst))
  {
  }

  lemma CreateEventKeeps(db: Db, info: EventInfo, insts: seq<nat>, now: int)
    requires WellFormed(db) && CanCreate(db, info, insts)
    ensures Keeps(db, CreateEvent(db, info, insts, now))
  {
    hide WellFormed, Grows, CanCreate, CreateEvent;
    CreatedWellFormed(db, info, insts, now);
    CreatedGrows(db, info, insts, now);
  }

  lemma CreatedGrows(db: Db, info: EventInfo, insts: seq<nat>, now: int)
    requires WellFormed(db)
    ensures Grows(db, CreateEvent(db, info, insts, now))
  {
    hide JobIds, Elements, Linked;
  }

  lemma CreatedWellFormed(db: Db, info: EventInfo, insts: seq<nat>, now: int)
    requires WellFormed(db) && CanCreate(db, info, insts)
    ensures WellFormed(CreateEvent(db, info, insts, now))
  {
    hide JobIds, Linked;
    var db' := CreateEvent(db, info, insts, now);
    forall j | j in db'.jobs ensures j < db'.next && Linked(db', db'.jobs[j]) { CreatedLink(db, info, insts, now, j); }
  }

  lemma CreatedLink(db: Db, info: EventInfo, insts: seq<nat>, now: int, j: nat)
    requires WellFormed(db) && j in CreateEvent(db, info, insts, now).jobs
    ensures var db' := CreateEvent(db, info, insts, now); j < db'.next && Linked(db', db'.jobs[j])
  {
    hide JobIds;
    if j in JobIds(db, |insts|) { assert insts[j - db.next - 1] in insts; }
  }

  lemma CreatedJobs(db: Db, info: EventInfo, insts: seq<nat>, now: int)
    requires WellFormed(db) && CanCreate(db, info, insts)
    ensures JobsOf(CreateEvent(db, info, insts, now), db.next) == Elements(JobIds(db, |insts|))
    ensures Distinct(JobIds(db, |insts|)) && |JobsOf(CreateEvent(db, info, insts, now), db.next)| == |insts|
  {
    DistinctSize(JobIds(db, |insts|));
  }

  lemma CreatedRow(db: Db, info: EventInfo, insts: seq<nat>, now: int, k: nat)
    requires k < |insts|
    ensures var db', j := CreateEvent(db, info, insts, now), db.next + 1 + k;
      JobIds(db, |insts|)[k] == j && j in db'.jobs && db'.jobs[j] == Job(db.next, insts[k], JobQueued, None)
  {
    hide Elements, JobIds;
    var ids := JobIds(db, |insts|);
    assert ids[k] in ids;
  }

  lemma NewIds(db: Db, insts: seq<nat>)
    ensures Ids(NewRows(db.next, insts)) == JobIds(db, |insts|)
  {
  }

  /** The new event's jobs: one per target, QUEUED, in the order of the targets. */
  lemma CreatedRows(db: Db, info: EventInfo, insts: seq<nat>, now: int)
    ensures Carries(CreateEvent(db, info, insts, now), NewRows(db.next, insts))
    ensures Ids(NewRows(db.next, insts)) == JobIds(db, |insts|)
  {
    hide CreateEvent, JobIds;
    NewIds(db, insts);
    forall k | 0 <= k < |insts| { CreatedRow(db, info, insts, now, k); }
  }

  lemma CarriesOn(db: Db, db': Db, rows: seq<JobRow>)
    requires Carries(db, rows)
    requires forall j | j in db.jobs ::
               j in db'.jobs && db'.jobs[j].event == db.jobs[j].event && db'.jobs[j].inst == db.jobs[j].inst
    ensures Carries(db', rows)
  {
  }
}
