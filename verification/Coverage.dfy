/** In every reachable state, whatever fails, an event has exactly one job for each of its targets. */
module Coverage {
  import opened Types
  import opened Sql
  import opened Handler
  import opened Machine
  import opened Structure

  ghost predicate JobFor(db: Db, j: nat, e: nat, i: nat) {
    j in db.jobs && db.jobs[j].event == e && db.jobs[j].inst == i
  }

  ghost predicate RowCovered(db: Db, e: nat)
    requires e in db.events
  {
    && (forall i | i in db.events[e].targets :: exists j :: JobFor(db, j, e, i))
    && (forall j, k, i | JobFor(db, j, e, i) && JobFor(db, k, e, i) :: j == k)
  }

  ghost predicate Covered(db: Db) {
    forall e | e in db.events :: RowCovered(db, e)
  }

  /** An event that was there keeps its jobs, and gets no other. */
  lemma RowSurvives(db: Db, db': Db, e: nat)
    requires Keeps(db, db') && e in db.events && RowCovered(db, e)
    ensures e in db'.events && RowCovered(db', e)
  {
    hide WellFormed;
    forall i | i in db'.events[e].targets ensures exists j :: JobFor(db', j, e, i) {
      var j :| JobFor(db, j, e, i);
      assert JobFor(db', j, e, i);
    }
    forall j, k, i | JobFor(db', j, e, i) && JobFor(db', k, e, i) ensures j == k {
      assert JobFor(db, j, e, i) && JobFor(db, k, e, i);
    }
  }

  lemma OldJobsElsewhere(db: Db, j: nat)
    requires WellFormed(db)
    ensures j in db.jobs ==> db.jobs[j].event < db.next
  {
    assert j in db.jobs ==> Linked(db, db.jobs[j]);
  }

  lemma NewJob(db: Db, info: EventInfo, insts: seq<nat>, now: int, j: nat)
    requires WellFormed(db) && j in CreateEvent(db, info, insts, now).jobs
    requires CreateEvent(db, info, insts, now).jobs[j].event == db.next
    ensures var k := j - db.next - 1;
      0 <= k < |insts| && CreateEvent(db, info, insts, now).jobs[j].inst == insts[k]
  {
    hide Elements;
    OldJobsElsewhere(db, j);
  }

  /** The transaction's new event: as many jobs as targets, and no target named twice. */
  lemma RowCreated(db: Db, info: EventInfo, insts: seq<nat>, now: int)
    requires WellFormed(db) && CanCreate(db, info, insts)
    ensures var db' := CreateEvent(db, info, insts, now); db.next in db'.events && RowCovered(db', db.next)
  {
    hide WellFormed, JobIds;
    var db', e := CreateEvent(db, info, insts, now), db.next;
    forall i | i in db'.events[e].targets ensures exists j :: JobFor(db', j, e, i) {
      var k :| 0 <= k < |insts| && insts[k] == i;
      CreatedRow(db, info, insts, now, k);
      assert JobFor(db', db.next + 1 + k, e, i);
    }
    forall j, k, i | JobFor(db', j, e, i) && JobFor(db', k, e, i) ensures j == k {
      NewJob(db, info, insts, now, j);
      NewJob(db, info, insts, now, k);
    }
  }

  lemma InsertedRow(s: State, call: nat, now: int, reply: Reply)
    requires call in s.calls && s.calls[call].Checking? && WellFormed(s.w.db) && reply.Effective()
    requires CanCreate(s.w.db, s.calls[call].info, s.calls[call].insts)
    ensures var db' := DoInsert(s, call, now, reply).w.db; s.w.db.next in db'.events && RowCovered(db', s.w.db.next)
  {
    hide CanCreate, CreateEvent, RowCovered, WellFormed, Elements, OnlyCall;
    RowCreated(s.w.db, s.calls[call].info, s.calls[call].insts, now);
  }

  lemma CoveredStep(su: Setup, s: State, a: Action)
    requires Enabled(su, s, a) && WellFormed(s.w.db) && Covered(s.w.db)
    ensures Covered(Apply(su, s, a).w.db)
  {
    hide WellFormed, Keeps, RowCovered, CanCall, DoCall, DoInsert, CanDelete, DoWork, DoSettle, CanSettle, Step;
    var db, db' := s.w.db, Apply(su, s, a).w.db;
    DbStep(su, s, a);
    if a.Work? { EventKeys(s.w, s.cons[a.i].d.body.job, s.cons[a.i].pc, a.io, su.valid); }
    forall e | e in db'.events ensures RowCovered(db', e) {
      if e in db.events {
        RowSurvives(db, db', e);
      } else {
        NewRowCovered(su, s, a.call, a.step, e);
      }
    }
  }

  lemma NewRowCovered(su: Setup, s: State, call: nat, step: ApiStep, e: nat)
    requires CanCall(su, s, call, step) && WellFormed(s.w.db)
    requires e in DoCall(su, s, call, step).w.db.events && e !in s.w.db.events
    ensures RowCovered(DoCall(su, s, call, step).w.db, e)
  {
    hide WellFormed, RowCovered, DoInsert, CanCreate, OnlyCall;
    NewEvent(su, s, call, step, e);
    InsertedRow(s, call, step.now, step.reply);
  }

  /** Exactly one job for each target, whatever fails. */
  lemma {:induction false} ReachableCovered(su: Setup, run: seq<Action>)
    requires Legal(su, run)
    ensures Covered(After(su, run).w.db)
  {
    hide Enabled, Allowed, Apply, Covered, WellFormed, CallsOk, ConsumersOk, MessagesOk, TagsOk, RowsOk, ReadsOk;
    if run == [] {
      NothingToCover(su);
    } else {
      var before, a := run[..|run| - 1], run[|run| - 1];
      ReachableCovered(su, before);
      ReachableStructured(su, before);
      CoveredStep(su, After(su, before), a);
    }
  }

  lemma NothingToCover(su: Setup)
    ensures Covered(Init(su).w.db)
  {
  }
}
