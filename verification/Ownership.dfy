/** Who owns what, in every reachable state and whatever fails, although Create checks ownership before its
    transaction and instances may be deleted in between. */
module Ownership {
  import opened Types
  import opened Sql
  import opened Handler
  import opened Machine
  import opened Structure
  import opened Requests
  import OneToken

  /** An event went through Create's checks, the event it is related to exists, and all its targets belong to
      its owner. */
  ghost predicate RowOwned(su: Setup, db: Db, e: nat)
    requires e in db.events
  {
    var row := db.events[e];
    && row.targets != {} && ConfigFits(su.yaml, row.info.task, row.info.config)
    && row.info.checksum == Checksum(row.info.config)
    && (row.info.related.Some? ==> row.info.related.value in db.events)
    && forall i | i in row.targets :: i in db.instances && db.instances[i].owner == row.info.owner
  }

  /** The instances a Create call has checked so far belong to the caller, or are gone for good. */
  ghost predicate CallOwned(su: Setup, db: Db, c: Call) {
    c.Checking? ==>
      && ValidInput(su, c.info, c.insts) && c.checked <= |c.insts|
      && forall k | 0 <= k < c.checked ::
           c.insts[k] < db.next && (c.insts[k] in db.instances ==> db.instances[c.insts[k]].owner == c.info.owner)
  }

  ghost predicate Owned(su: Setup, s: State) {
    && (forall e | e in s.w.db.events :: RowOwned(su, s.w.db, e))
    && (forall c | c in s.calls :: CallOwned(su, s.w.db, s.calls[c]))
  }

  lemma RowSurvives(su: Setup, db: Db, db': Db, e: nat)
    requires WellFormed(db) && Keeps(db, db') && e in db.events && RowOwned(su, db, e)
    ensures e in db'.events && RowOwned(su, db', e)
  {
  }

  lemma CallSurvives(su: Setup, db: Db, db': Db, c: Call)
    requires WellFormed(db) && Keeps(db, db') && CallOwned(su, db, c)
    ensures CallOwned(su, db', c)
  {
    hide WellFormed, ValidInput;
  }

  /** The row a transaction adds: all targets were checked, and the foreign key says they still exist. */
  lemma InsertedRow(su: Setup, s: State, call: nat, now: int, reply: Reply)
    requires call in s.calls && s.calls[call].Checking? && s.calls[call].checked >= |s.calls[call].insts|
    requires CallOwned(su, s.w.db, s.calls[call]) && reply.Effective()
    requires CanCreate(s.w.db, s.calls[call].info, s.calls[call].insts)
    ensures var db' := DoInsert(s, call, now, reply).w.db;
      s.w.db.next in db'.events && RowOwned(su, db', s.w.db.next)
  {
    hide OnlyCall, JobIds, WellFormed;
    var c := s.calls[call];
    var db' := DoInsert(s, call, now, reply).w.db;
    forall i | i in Elements(c.insts) ensures i in db'.instances && db'.instances[i].owner == c.info.owner {
      var k :| 0 <= k < |c.insts| && c.insts[k] == i;
    }
    assert c.insts[0] in Elements(c.insts);
  }

  lemma CallsOwned(su: Setup, s: State, call: nat, step: ApiStep)
    requires CanCall(su, s, call, step) && Owned(su, s) && WellFormed(s.w.db)
    requires Keeps(s.w.db, DoCall(su, s, call, step).w.db)
    ensures var s' := DoCall(su, s, call, step); forall c | c in s'.calls :: CallOwned(su, s'.w.db, s'.calls[c])
  {
    hide WellFormed, Keeps, RowOwned, DoInsert, DoReset, DoPublish, DoWriteStatus, DoReadBack, ListsFailed, DoCall;
    hide CanCall;
    var s' := DoCall(su, s, call, step);
    forall c | c in s'.calls ensures CallOwned(su, s'.w.db, s'.calls[c]) {
      if c == call {
        OwnCall(su, s, call, step);
      } else {
        CallSurvives(su, s.w.db, s'.w.db, s.calls[c]);
      }
    }
  }

  lemma OwnCall(su: Setup, s: State, call: nat, step: ApiStep)
    requires CanCall(su, s, call, step) && WellFormed(s.w.db)
    requires call in s.calls ==> CallOwned(su, s.w.db, s.calls[call])
    ensures var s' := DoCall(su, s, call, step); call in s'.calls ==> CallOwned(su, s'.w.db, s'.calls[call])
  {
    hide ListsFailed, CreateEvent, ResetFailed, WriteEventStatus, JobIds, Elements, CanCreate, MessageFor, OnlyCall;
    hide ValidInput;
  }

  lemma RowsOwned(su: Setup, s: State, call: nat, step: ApiStep)
    requires CanCall(su, s, call, step) && Owned(su, s) && WellFormed(s.w.db)
    requires Keeps(s.w.db, DoCall(su, s, call, step).w.db)
    ensures var s' := DoCall(su, s, call, step); forall e | e in s'.w.db.events :: RowOwned(su, s'.w.db, e)
  {
    hide WellFormed, Keeps, RowOwned, DoInsert, DoReset, DoPublish, DoWriteStatus, DoReadBack, ListsFailed, CallOwned;
    var s' := DoCall(su, s, call, step);
    forall e | e in s'.w.db.events ensures RowOwned(su, s'.w.db, e) {
      if e in s.w.db.events {
        RowSurvives(su, s.w.db, s'.w.db, e);
      } else {
        NewEvent(su, s, call, step, e);
        InsertedRow(su, s, call, step.now, step.reply);
      }
    }
  }

  lemma OwnedStep(su: Setup, s: State, a: Action)
    requires Enabled(su, s, a) && Owned(su, s) && WellFormed(s.w.db)
    ensures Owned(su, Apply(su, s, a))
  {
    hide WellFormed, Keeps, RowOwned, CallOwned, CanCall, DoCall, CanDelete, DoWork, DoSettle, CanSettle, Step;
    var s' := Apply(su, s, a);
    DbStep(su, s, a);
    if a.Api? {
      CallsOwned(su, s, a.call, a.step);
      RowsOwned(su, s, a.call, a.step);
    } else {
      if a.Work? {
        EventKeys(s.w, s.cons[a.i].d.body.job, s.cons[a.i].pc, a.io, su.valid);
      }
      forall e | e in s'.w.db.events ensures RowOwned(su, s'.w.db, e) { RowSurvives(su, s.w.db, s'.w.db, e); }
      forall c | c in s'.calls ensures CallOwned(su, s'.w.db, s'.calls[c]) {
        CallSurvives(su, s.w.db, s'.w.db, s.calls[c]);
      }
    }
  }

  lemma {:induction false} ReachableOwned(su: Setup, run: seq<Action>)
    requires Legal(su, run)
    ensures Owned(su, After(su, run)) && WellFormed(After(su, run).w.db)
  {
    hide Enabled, Allowed, Apply, Owned, CallsOk, ConsumersOk, MessagesOk, WellFormed, TagsOk, RowsOk, ReadsOk;
    ReachableStructured(su, run);
    if run == [] {
      NothingOwned(su);
    } else {
      var before, a := run[..|run| - 1], run[|run| - 1];
      ReachableOwned(su, before);
      OwnedStep(su, After(su, before), a);
    }
  }

  lemma NothingOwned(su: Setup)
    ensures Owned(su, Init(su))
  {
  }

  // ---------- what that gives ----------

  /** Whatever fails, every event has a target, a configuration that is not empty and parses if its task is
      to deploy or validate one, and the digest of its configuration; the event it is related to, if any, exists. */
  lemma EventsAreValidated(su: Setup, run: seq<Action>, e: nat)
    requires Legal(su, run) && e in After(su, run).w.db.events
    ensures var row := After(su, run).w.db.events[e];
      && row.targets != {} && (row.info.related.Some? ==> row.info.related.value in After(su, run).w.db.events)
      && (row.info.task == DeployConfig || row.info.task == ValidateConfig ==>
            row.info.config.Some? && row.info.config.value != "" && su.yaml(row.info.config.value))
      && row.info.checksum == (if row.info.config.Some? then Some(Sha256(row.info.config.value)) else None)
  {
    hide After, Legal, CallOwned;
    ReachableOwned(su, run);
    assert RowOwned(su, After(su, run).w.db, e);
  }

  /** Every job's instance exists and belongs to the owner of the job's event. */
  lemma JobsBelongToOwner(su: Setup, run: seq<Action>, j: nat)
    requires Legal(su, run) && j in After(su, run).w.db.jobs
    ensures var db := After(su, run).w.db;
      && db.jobs[j].event in db.events && db.jobs[j].inst in db.instances
      && db.instances[db.jobs[j].inst].owner == db.events[db.jobs[j].event].info.owner
  {
    hide After, Legal;
    ReachableOwned(su, run);
    var db := After(su, run).w.db;
    assert Linked(db, db.jobs[j]);
    assert RowOwned(su, db, db.jobs[j].event);
  }

  /** A Create call of event `e`'s owner on some of its targets, anywhere between its start and its
      transaction and whatever else goes on. */
  ghost predicate OnOwnTargets(s: State, call: nat, e: nat) {
    && e in s.w.db.events && call in s.calls && s.calls[call].Checking?
    && s.calls[call].info.owner == s.w.db.events[e].info.owner
    && Distinct(s.calls[call].insts) && Elements(s.calls[call].insts) <= s.w.db.events[e].targets
    && (s.calls[call].info.related.Some? ==> s.calls[call].info.related.value in s.w.db.events)
  }

  /** The jobs of event `ev` are `jobs`, in order QUEUED on `insts`. */
  ghost predicate OneJobEach(db: Db, ev: nat, jobs: seq<nat>, insts: seq<nat>) {
    && |jobs| == |insts| && Distinct(jobs) && JobsOf(db, ev) == Elements(jobs)
    && forall k | 0 <= k < |jobs| :: jobs[k] in db.jobs && db.jobs[jobs[k]] == Job(ev, insts[k], JobQueued, None)
  }

  /** Its next step, if it reaches the database, succeeds: each ownership check passes, and the transaction
      commits one event with exactly these targets and one QUEUED job for each. */
  lemma OwnTargetsPass(su: Setup, run: seq<Action>, call: nat, e: nat, now: int)
    requires Legal(su, run) && OnOwnTargets(After(su, run), call, e)
    ensures var s := After(su, run);
      var c := s.calls[call];
      if c.checked < |c.insts|
      then call in DoCheck(s, call, Confirmed).calls
           && DoCheck(s, call, Confirmed).calls[call] == c.(checked := c.checked + 1)
      else
        var s' := DoInsert(s, call, now, Confirmed);
        && call in s'.calls
        && s'.calls[call] == NeedStatus(s.w.db.next, JobIds(s.w.db, |c.insts|), false, c.info.task, false)
        && s.w.db.next in s'.w.db.events
        && s'.w.db.events[s.w.db.next] == Event(c.info, Elements(c.insts), now, EventQueued, |c.insts|, 0, 0)
        && OneJobEach(s'.w.db, s.w.db.next, JobIds(s.w.db, |c.insts|), c.insts)
  {
    hide After, Legal, WellFormed, CallOwned, Elements, OnlyCall;
    var s := After(su, run);
    ReachableOwned(su, run);
    assert RowOwned(su, s.w.db, e);
    var c := s.calls[call];
    OwnTargetsExist(s.w.db, e, c.insts);
    if c.checked >= |c.insts| { InsertedJobs(s, call, now); }
  }

  lemma OwnTargetsExist(db: Db, e: nat, insts: seq<nat>)
    requires e in db.events && Distinct(insts) && Elements(insts) <= db.events[e].targets
    requires forall i | i in db.events[e].targets ::
               i in db.instances && db.instances[i].owner == db.events[e].info.owner
    ensures TargetsFit(db, insts)
    ensures forall k | 0 <= k < |insts| ::
              insts[k] in db.instances && db.instances[insts[k]].owner == db.events[e].info.owner
  {
    forall i | i in insts ensures i in db.instances && db.instances[i].owner == db.events[e].info.owner {
      assert i in Elements(insts);
    }
  }

  lemma InsertedJobs(s: State, call: nat, now: int)
    requires call in s.calls && s.calls[call].Checking? && WellFormed(s.w.db)
    requires CanCreate(s.w.db, s.calls[call].info, s.calls[call].insts)
    ensures var c := s.calls[call];
      OneJobEach(DoInsert(s, call, now, Confirmed).w.db, s.w.db.next, JobIds(s.w.db, |c.insts|), c.insts)
  {
    hide WellFormed, CanCreate, OnlyCall, Elements, CreateEvent, JobIds, JobsOf;
    var db, c := s.w.db, s.calls[call];
    CreatedJobs(db, c.info, c.insts, now);
    forall k | 0 <= k < |c.insts| { CreatedRow(db, c.info, c.insts, now, k); }
  }

  /** A clone without overrides, of any event ever reached: the owner's passes Create's validation and every
      ownership check; anybody else's fails them. Task, configuration, checksum and targets are the source's. */
  lemma CloneWithoutOverrides(su: Setup, run: seq<Action>, e: nat, listing: seq<nat>, user: string)
    requires Legal(su, run) && e in After(su, run).w.db.events && Lists(listing, After(su, run).w.db.events[e].targets)
    ensures var db := After(su, run).w.db;
      var src := db.events[e];
      var input := CloneInput(src, listing, user, NO_OVERRIDES);
      && Acceptable(su.yaml, input) && ValidInput(su, InfoOf(input), input.insts)
      && InfoOf(input).task == src.info.task && InfoOf(input).config == src.info.config
      && InfoOf(input).checksum == src.info.checksum && Elements(input.insts) == src.targets
      && (forall i | i in input.insts :: i in db.instances)
      && ((forall i | i in input.insts :: db.instances[i].owner == user) <==> user == src.info.owner)
  {
    hide After, Legal, WellFormed, CallOwned;
    ReachableOwned(su, run);
    var db := After(su, run).w.db;
    assert RowOwned(su, db, e);
    forall i ensures i in listing <==> i in db.events[e].targets { assert i in listing <==> i in Elements(listing); }
    assert listing == [] ==> Elements(listing) == {};
  }

  /** Rolling back a job: a rollback of its instance, tied to its event, accepted without a configuration; the
      event's owner (and nobody else) owns the instance. */
  lemma RollbackOfAJob(su: Setup, run: seq<Action>, j: nat, user: string, email: string)
    requires Legal(su, run) && j in After(su, run).w.db.jobs
    ensures var db := After(su, run).w.db;
      var e := db.jobs[j].event;
      e in db.events &&
      var input := RollbackInput(e, db.events[e], db.jobs[j].inst, user, email);
      && ValidInput(su, InfoOf(input), input.insts) && Distinct(input.insts)
      && Elements(input.insts) <= db.events[e].targets
      && input.insts == [db.jobs[j].inst] && InfoOf(input) ==
           EventInfo(user, "Rollback " + db.events[e].info.name, email, email, RollbackConfig, None, None,
                     Some(e), Some("instance"))
      && input.insts[0] in db.instances
      && (db.instances[input.insts[0]].owner == user <==> user == db.events[e].info.owner)
  {
    hide After, Legal, CallOwned;
    ReachableOwned(su, run);
    JobsBelongToOwner(su, run, j);
    var db := After(su, run).w.db;
    assert Linked(db, db.jobs[j]);
  }

  /** A deleted instance is gone for good, whatever comes after; no other row went with it. */
  lemma DeletedForGood(su: Setup, run: seq<Action>, k: nat, inst: nat, owner: string)
    requires Legal(su, run) && k < |run| && run[k] == RemoveInstance(inst, owner)
    ensures Legal(su, run[..k]) && Legal(su, run[..k + 1]) && inst !in After(su, run).w.db.instances
    ensures var db, db' := After(su, run[..k]).w.db, After(su, run[..k + 1]).w.db;
      && inst in db.instances && db.instances[inst].owner == owner && db'.instances.Keys == db.instances.Keys - {inst}
      && db'.events == db.events && db'.jobs == db.jobs
      && forall i | i in db'.instances :: db'.instances[i] == db.instances[i]
  {
    hide Enabled, Apply, Allowed;
    OneToken.LegalPrefix(su, run, k);
    OneToken.LegalPrefix(su, run, k + 1);
    assert run[..k + 1][..k] == run[..k] && run[..k + 1][k] == run[k];
    ReachableStructured(su, run[..k]);
    DeleteStep(su, After(su, run[..k]), inst, owner);
    StaysAway(su, run, k + 1, inst);
  }

  lemma DeleteStep(su: Setup, s: State, inst: nat, owner: string)
    requires Enabled(su, s, RemoveInstance(inst, owner)) && Structured(s)
    ensures var db, db' := s.w.db, Apply(su, s, RemoveInstance(inst, owner)).w.db;
      && inst in db.instances && db.instances[inst].owner == owner && db'.instances.Keys == db.instances.Keys - {inst}
      && db'.events == db.events && db'.jobs == db.jobs && inst < db'.next && inst !in db'.instances
      && forall i | i in db'.instances :: db'.instances[i] == db.instances[i]
  {
    hide TagsOk, RowsOk, ReadsOk, CallsOk, ConsumersOk, MessagesOk, Referenced;
  }

  /** An id that was given out and has no row never has one again. */
  lemma {:induction false} StaysAway(su: Setup, run: seq<Action>, k: nat, inst: nat)
    requires Legal(su, run) && k <= |run| && Legal(su, run[..k])
    requires var db := After(su, run[..k]).w.db; inst < db.next && inst !in db.instances
    ensures inst !in After(su, run).w.db.instances && inst < After(su, run).w.db.next
  {
    hide Enabled, Apply, Allowed, Structured, WellFormed;
    if k == |run| {
      assert run[..k] == run;
    } else {
      var before := run[..|run| - 1];
      assert before[..k] == run[..k];
      StaysAway(su, before, k, inst);
      ReachableStructured(su, before);
      StructuredStep(su, After(su, before), run[|run| - 1]);
    }
  }
}
