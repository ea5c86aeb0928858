/** The store as its methods change it in place. Each method runs one call's SQL statements one after
    another; the replies say how each round trip to the database ends. */
module Store {
  import opened Types
  import opened Sql
  import opened Requests

  class Store {
    var next: nat
    var instances: map<nat, Instance>
    var events: map<nat, Event>
    var jobs: map<nat, Job>

    function Contents(): Db
      reads this
    {
      Db(next, instances, events, jobs)
    }

    constructor ()
      ensures Contents() == EMPTY
    {
      next, instances, events, jobs := 0, map[], map[], map[];
    }

    // ---------- instances ----------

    method CreateInstance(owner: string, reply: Reply) returns (inst: Option<nat>)
      modifies this
      ensures Contents() == if reply.Effective() then InsertInstance(old(Contents()), owner) else old(Contents())
      ensures inst == if reply.Confirmed? then Some(old(next)) else None
      ensures reply.Effective() ==> instances == old(instances)[old(next) := Instance(owner, None)]
    {
      var id := next;
      if reply.Effective() {
        instances := instances[id := Instance(owner, None)];
        next := id + 1;
      }
      inst := if reply.Confirmed? then Some(id) else None;
    }

    method GetInstance(inst: nat, reply: Reply) returns (row: Option<Instance>)
      ensures row == if reply.Confirmed? && inst in instances then Some(instances[inst]) else None
    {
      row := if reply.Confirmed? && inst in instances then Some(instances[inst]) else None;
    }

    /** Reports no error when its guard matches no row. */
    method UpdateInstanceHostKeyFingerprint(inst: nat, key: string, reply: Reply) returns (ok: bool)
      modifies this`instances
      ensures Contents() == if reply.Effective() then PinHostKey(old(Contents()), inst, key) else old(Contents())
      ensures ok == reply.Confirmed?
    {
      if reply.Effective() && inst in instances {
        var row := instances[inst];
        if row.pin == None || row.pin == Some(key) {
          instances := instances[inst := row.(pin := Some(key))];
        }
      }
      ok := reply.Confirmed?;
    }

    method DeleteInstance(inst: nat, owner: string, reply: Reply) returns (ok: bool)
      modifies this`instances
      ensures Contents() == if reply.Effective() && CanDelete(old(Contents()), inst, owner)
                            then Sql.DeleteInstance(old(Contents()), inst) else old(Contents())
      ensures ok == (reply.Confirmed? && CanDelete(old(Contents()), inst, owner))
      ensures ok ==> inst !in instances && old(instances) == instances[inst := old(instances)[inst]]
    {
      var allowed := CanDelete(Contents(), inst, owner);
      if reply.Effective() && allowed { instances := instances - {inst}; }
      ok := reply.Confirmed? && allowed;
    }

    method UserOwnsInstance(user: string, inst: nat, reply: Reply) returns (owns: bool)
      ensures owns == (reply.Confirmed? && inst in instances && instances[inst].owner == user)
    {
      if !reply.Confirmed? || inst !in instances { return false; }
      owns := instances[inst].owner == user;
    }

    method UserOwnsEvent(user: string, ev: nat, reply: Reply) returns (owns: bool)
      ensures owns == (reply.Confirmed? && ev in events && events[ev].info.owner == user)
    {
      if !reply.Confirmed? || ev !in events { return false; }
      owns := events[ev].info.owner == user;
    }

    // ---------- events and jobs ----------

    /** One transaction: the event, then a link and a job per target. A violated key rolls all of it back. */
    method CreateEventWithJobs(info: EventInfo, insts: seq<nat>, now: int, reply: Reply)
      returns (made: Option<(nat, seq<JobRow>)>)
      modifies this
      ensures Contents() == if reply.Effective() && CanCreate(old(Contents()), info, insts)
                            then CreateEvent(old(Contents()), info, insts, now) else old(Contents())
      ensures made == if reply.Confirmed? && CanCreate(old(Contents()), info, insts)
                      then Some((old(next), NewRows(old(next), insts))) else None
    {
      hide CreateEvent, JobIds, Partway, TargetsFit, Elements;
      if !reply.Effective() { return None; }
      if info.related.Some? && info.related.value !in events { return None; }
      var before := Contents();
      var ev := next;
      events := events[ev := Event(info, {}, now, EventQueued, |insts|, 0, 0)];
      next := next + 1;
      var rows: seq<JobRow> := [];
      PartwayStart(before, info, insts, now);
      NothingYet(before, insts);
      for k := 0 to |insts|
        invariant Contents() == Partway(before, info, insts, now, k) && TargetsFit(before, insts[..k])
        invariant |rows| == k && forall m | 0 <= m < k :: rows[m] == JobRow(ev + 1 + m, ev, insts[m])
      {
        var inst := insts[k];
        if inst in events[ev].targets || inst !in instances {
          KeyViolated(before, insts, k);
          next, events, jobs := before.next, before.events, before.jobs;
          return None;
        }
        PartwayStep(before, info, insts, now, k);
        OneMoreFits(before, insts, k);
        events := events[ev := events[ev].(targets := events[ev].targets + {inst})];
        jobs := jobs[next := Job(ev, inst, JobQueued, None)];
        rows := rows + [JobRow(next, ev, inst)];
        next := next + 1;
      }
      assert insts[..|insts|] == insts;
      PartwayEnd(before, info, insts, now);
      assert rows == NewRows(ev, insts);
      made := if reply.Confirmed? then Some((ev, rows)) else None;
    }

    method GetJob(job: nat, reply: Reply) returns (row: Option<Job>)
      ensures row == if reply.Confirmed? && job in jobs then Some(jobs[job]) else None
    {
      row := if reply.Confirmed? && job in jobs then Some(jobs[job]) else None;
    }

    /** The event row and its targets, in whatever order the database lists them. */
    method GetEvent(ev: nat, reply: Reply) returns (row: Option<(Event, seq<nat>)>)
      ensures row.Some? <==> reply.Confirmed? && ev in events
      ensures row.Some? ==> row.value.0 == events[ev] && Lists(row.value.1, events[ev].targets)
    {
      if !reply.Confirmed? || ev !in events { return None; }
      var listing := Listing(events[ev].targets);
      row := Some((events[ev], listing));
    }

    method UpdateJobRunning(job: nat, reply: Reply) returns (ok: bool)
      modifies this`jobs
      ensures Contents() == if reply.Effective() then MarkJobRunning(old(Contents()), job) else old(Contents())
      ensures ok == reply.Confirmed?
      ensures reply.Effective() && job in old(jobs) ==>
        var row := old(jobs)[job]; jobs == old(jobs)[job := Job(row.event, row.inst, JobRunning, row.exit)]
    {
      if reply.Effective() && job in jobs { jobs := jobs[job := jobs[job].(status := JobRunning)]; }
      ok := reply.Confirmed?;
    }

    method UpdateJobResult(job: nat, status: JobStatus, exit: int, reply: Reply) returns (ok: bool)
      modifies this`jobs
      ensures Contents() == if reply.Effective() then WriteJobResult(old(Contents()), job, status, exit)
                            else old(Contents())
      ensures ok == reply.Confirmed?
      ensures reply.Effective() && job in old(jobs) ==>
        var row := old(jobs)[job]; jobs == old(jobs)[job := Job(row.event, row.inst, status, Some(exit))]
    {
      if reply.Effective() && job in jobs {
        jobs := jobs[job := jobs[job].(status := status, exit := Some(exit))];
      }
      ok := reply.Confirmed?;
    }

    method UpdateEventStatus(ev: nat, status: EventStatus, reply: Reply) returns (ok: bool)
      modifies this`events
      ensures Contents() == if reply.Effective() then WriteEventStatus(old(Contents()), ev, status)
                            else old(Contents())
      ensures ok == reply.Confirmed?
      ensures reply.Effective() && ev in old(events) ==>
        var row := old(events)[ev];
        events == old(events)[ev :=
          Event(row.info, row.targets, row.createdAt, status, row.total, row.verified, row.failed)]
    {
      if reply.Effective() && ev in events { events := events[ev := events[ev].(status := status)]; }
      ok := reply.Confirmed?;
    }

    /** Two reads and a write; with nothing in between they amount to the atomic rollup. */
    method RollupEvent(ev: nat, counts: Reply, pendings: Reply, write: Reply) returns (ok: bool)
      modifies this`events
      ensures Contents() == if counts.Confirmed? && pendings.Confirmed? && write.Effective()
                            then RollupAtOnce(old(Contents()), ev) else old(Contents())
      ensures ok == (counts.Confirmed? && pendings.Confirmed? && write.Confirmed?)
    {
      if !counts.Confirmed? { return false; }
      var verified := |JobsIn(Contents(), ev, JobVerified)|;
      var failed := |JobsIn(Contents(), ev, JobFailed)|;
      var total := |JobsOf(Contents(), ev)|;
      if !pendings.Confirmed? { return false; }
      var pending := |PendingJobs(Contents(), ev)|;
      var status := EventRunning;
      if pending == 0 {
        if verified == total { status := EventCompleted; }
        else if failed == total { status := EventFailed; }
        else { status := EventPartial; }
      }
      if write.Effective() && ev in events {
        events := events[ev := events[ev].(status := status, verified := verified, failed := failed, total := total)];
      }
      ok := write.Confirmed?;
    }

    /** UPDATE jobs ... RETURNING id, event_id, instance_id. */
    method ResetReturning(ev: nat) returns (rows: seq<JobRow>)
      modifies this`jobs
      ensures Contents() == ResetFailed(old(Contents()), ev)
      ensures Lists(Ids(rows), JobsIn(old(Contents()), ev, JobFailed)) && Carries(old(Contents()), rows)
    {
      hide Lists;
      var failed := JobsIn(Contents(), ev, JobFailed);
      rows := Returned(jobs, failed);
      jobs := map j | j in jobs :: if j in failed then jobs[j].(status := JobQueued, exit := None) else jobs[j];
    }

    /** UPDATE ... RETURNING, then the event's status; the second write happens even when no row was reset,
        and when the UPDATE's error shows only after the rows are read (`late`). */
    method ResetFailedJobs(ev: nat, reset: Reply, late: bool, write: Reply) returns (rows: Option<seq<JobRow>>)
      modifies this`jobs, this`events
      ensures Contents() ==
        var db := if reset.Effective() then ResetFailed(old(Contents()), ev) else old(Contents());
        if (reset.Confirmed? || late) && write.Effective() then WriteEventStatus(db, ev, EventRunning) else db
      ensures rows.Some? <==> reset.Confirmed? && write.Confirmed?
      ensures rows.Some? ==>
        Lists(Ids(rows.value), JobsIn(old(Contents()), ev, JobFailed)) && Carries(old(Contents()), rows.value)
    {
      hide ResetFailed, WriteEventStatus, JobsIn, Lists, Carries;
      var returned := [];
      if reset.Effective() { returned := ResetReturning(ev); }
      if !reset.Confirmed? && !late { return None; }
      var ok := UpdateEventStatus(ev, EventRunning, write);
      if !ok { return None; }
      rows := if reset.Confirmed? then Some(returned) else None;
    }
  }

  /** The rows RETURNING gives for the updated jobs, read one by one. */
  method Returned(jobs: map<nat, Job>, wanted: set<nat>) returns (rows: seq<JobRow>)
    requires wanted <= jobs.Keys
    ensures Lists(Ids(rows), wanted)
    ensures forall k | 0 <= k < |rows| ::
              rows[k].id in jobs && rows[k] == JobRow(rows[k].id, jobs[rows[k].id].event, jobs[rows[k].id].inst)
  {
    rows := [];
    var rest := wanted;
    while rest != {}
      invariant rest <= wanted && Elements(Ids(rows)) == wanted - rest && Distinct(Ids(rows))
      invariant forall k | 0 <= k < |rows| ::
                  rows[k].id in jobs && rows[k] == JobRow(rows[k].id, jobs[rows[k].id].event, jobs[rows[k].id].inst)
      decreases |rest|
    {
      var j :| j in rest;
      var row := JobRow(j, jobs[j].event, jobs[j].inst);
      OneMoreListed(Ids(rows), j);
      assert Ids(rows + [row]) == Ids(rows) + [j];
      rows := rows + [row];
      rest := rest - {j};
    }
  }

  lemma OneMoreListed(s: seq<nat>, x: nat)
    requires Distinct(s) && x !in Elements(s)
    ensures Distinct(s + [x]) && Elements(s + [x]) == Elements(s) + {x}
  {
  }

  /** Append the rows of a result set one by one. */
  method Listing(rows: set<nat>) returns (listing: seq<nat>)
    ensures Lists(listing, rows)
  {
    listing := [];
    var rest := rows;
    while rest != {}
      invariant rest <= rows && Elements(listing) == rows - rest && Distinct(listing)
      decreases |rest|
    {
      var r :| r in rest;
      assert r !in Elements(listing);
      assert Elements(listing + [r]) == Elements(listing) + {r};
      listing := listing + [r];
      rest := rest - {r};
    }
  }

  /** The database inside the transaction, after `k` targets. */
  function Partway(db: Db, info: EventInfo, insts: seq<nat>, now: int, k: nat): (p: Db)
    requires k <= |insts|
    ensures p.next == db.next + 1 + k && p.instances == db.instances && db.next in p.events
    ensures p.events[db.next].targets == Elements(insts[..k])
  {
    var ev := db.next;
    db.(next := ev + 1 + k,
        events := db.events[ev := Event(info, Elements(insts[..k]), now, EventQueued, |insts|, 0, 0)],
        jobs := db.jobs + NewJobs(db, insts, k))
  }

  function NewJobs(db: Db, insts: seq<nat>, k: nat): map<nat, Job>
    requires k <= |insts|
  {
    map j | j in JobIds(db, k) :: Job(db.next, insts[j - db.next - 1], JobQueued, None)
  }

  lemma PartwayStart(db: Db, info: EventInfo, insts: seq<nat>, now: int)
    ensures Partway(db, info, insts, now, 0) ==
            db.(next := db.next + 1, events := db.events[db.next := Event(info, {}, now, EventQueued, |insts|, 0, 0)])
  {
    assert insts[..0] == [];
    assert Elements(insts[..0]) == {};
    assert JobIds(db, 0) == [];
    assert Partway(db, info, insts, now, 0).jobs == db.jobs;
  }

  lemma PartwayEnd(db: Db, info: EventInfo, insts: seq<nat>, now: int)
    ensures Partway(db, info, insts, now, |insts|) == CreateEvent(db, info, insts, now)
  {
    assert insts[..|insts|] == insts;
  }

  lemma PartwayStep(db: Db, info: EventInfo, insts: seq<nat>, now: int, k: nat)
    requires k < |insts|
    ensures var p, p' := Partway(db, info, insts, now, k), Partway(db, info, insts, now, k + 1);
      && p'.next == p.next + 1 && p'.instances == p.instances
      && p'.events == p.events[db.next := p.events[db.next].(targets := p.events[db.next].targets + {insts[k]})]
      && p'.jobs == p.jobs[p.next := Job(db.next, insts[k], JobQueued, None)]
  {
    hide NewJobs, Elements;
    OneMoreElement(insts, k);
    PartwayJobs(db, insts, k);
    assert db.jobs + NewJobs(db, insts, k + 1) ==
           (db.jobs + NewJobs(db, insts, k))[db.next + 1 + k := Job(db.next, insts[k], JobQueued, None)];
  }

  lemma OneMoreElement(insts: seq<nat>, k: nat)
    requires k < |insts|
    ensures Elements(insts[..k + 1]) == Elements(insts[..k]) + {insts[k]}
  {
    assert insts[..k + 1] == insts[..k] + [insts[k]];
  }

  lemma OneMoreId(db: Db, k: nat)
    ensures JobIds(db, k + 1) == JobIds(db, k) + [db.next + 1 + k]
  {
  }

  lemma PartwayJobs(db: Db, insts: seq<nat>, k: nat)
    requires k < |insts|
    ensures NewJobs(db, insts, k + 1) ==
            NewJobs(db, insts, k)[db.next + 1 + k := Job(db.next, insts[k], JobQueued, None)]
  {
    hide JobIds;
    OneMoreId(db, k);
    var ids, ids' := JobIds(db, k), JobIds(db, k + 1);
    assert forall j :: j in ids' <==> j in ids || j == db.next + 1 + k;
  }

  lemma NothingYet(db: Db, insts: seq<nat>)
    ensures TargetsFit(db, insts[..0]) && JobIds(db, 0) == [] && Elements(insts[..0]) == {}
  {
  }

  lemma OneMoreFits(db: Db, insts: seq<nat>, k: nat)
    requires k < |insts| && TargetsFit(db, insts[..k])
    requires insts[k] !in Elements(insts[..k]) && insts[k] in db.instances
    ensures TargetsFit(db, insts[..k + 1])
  {
    assert insts[..k + 1] == insts[..k] + [insts[k]];
  }

  lemma KeyViolated(db: Db, insts: seq<nat>, k: nat)
    requires k < |insts| && (insts[k] in Elements(insts[..k]) || insts[k] !in db.instances)
    ensures !TargetsFit(db, insts)
  {
    assert insts[k] in insts;
    if insts[k] in insts[..k] {
      var m :| 0 <= m < k && insts[..k][m] == insts[k];
      assert insts[m] == insts[k];
    }
  }
}
