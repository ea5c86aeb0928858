/** Create, RerunFailed and Clone as they run: store calls and publishes one after another, proved to be the
    machine's API steps when nothing comes between them. */
module Service {
  import opened Types
  import opened Sql
  import opened Machine
  import opened Requests
  import Drain
  import Retry
  import Store

  /** How each call of one API request turns out, should the request get that far. */
  datatype Fate = Fate(
    event: Reply, owner: Reply, checks: nat -> Reply, now: int, insert: Reply, reset: Reply, late: bool,
    status: Reply, read: Reply, publish: nat -> Reply)

  function NextStep(c: Call, f: Fate): ApiStep {
    match c
    case Checking(_, insts, k) => if k < |insts| then CheckOwner(f.checks(k)) else Insert(f.now, f.insert)
    case NeedStatus(_, _, _, _, _) => WriteStatus(f.status)
    case NeedEvent(_, _) => ReadBack(f.read)
    case Publishing(_, jobs, _, pos) => if pos < |jobs| then Publish(f.publish(pos)) else Finish
  }

  ghost function Weight(s: State, call: nat): nat {
    if call in s.calls then Drain.CallWeight(s.calls[call]) else 0
  }

  lemma WeightFalls(su: Setup, s: State, call: nat, f: Fate)
    requires call in s.calls
    ensures CanCall(su, s, call, NextStep(s.calls[call], f))
    ensures Weight(DoCall(su, s, call, NextStep(s.calls[call], f)), call) < Weight(s, call)
  {
    hide DoCall;
    Drain.CallFalls(su, s, call, NextStep(s.calls[call], f));
  }

  /** The call's steps until it ends. */
  ghost function RunCall(su: Setup, s: State, call: nat, f: Fate): State
    decreases Weight(s, call)
  {
    if call !in s.calls then s
    else
      WeightFalls(su, s, call, f);
      RunCall(su, DoCall(su, s, call, NextStep(s.calls[call], f)), call, f)
  }

  lemma OneStep(su: Setup, s: State, call: nat, f: Fate)
    requires call in s.calls
    ensures CanCall(su, s, call, NextStep(s.calls[call], f))
    ensures RunCall(su, s, call, f) == RunCall(su, DoCall(su, s, call, NextStep(s.calls[call], f)), call, f)
  {
    hide DoCall, CanCall, NextStep;
    WeightFalls(su, s, call, f);
  }

  lemma AtEnd(su: Setup, s: State, call: nat, f: Fate)
    requires call !in s.calls
    ensures RunCall(su, s, call, f) == s
  {
  }

  /** The machine right after the UPDATE of a rerun, whose error may show at once or late. */
  ghost function AfterReset(s: State, call: nat, ev: nat, jobs: seq<nat>, f: Fate): State
    requires call !in s.calls
  {
    if f.late && !f.reset.Confirmed? then DoResetLate(s, call, ev, jobs, f.reset)
    else DoReset(s, call, ev, jobs, f.reset)
  }

  predicate Owns(db: Db, user: string, inst: nat) {
    inst in db.instances && db.instances[inst].owner == user
  }

  predicate OwnsEvent(db: Db, user: string, ev: nat) {
    ev in db.events && db.events[ev].info.owner == user
  }

  ghost predicate PublishesAll(f: Fate, n: nat) {
    forall k | 0 <= k < n :: f.publish(k).Confirmed?
  }

  /** Create returns the event: the caller owns every target, no target is named twice or gone, the related
      event exists, and no call to database or broker reports an error. */
  ghost predicate Accepted(db: Db, info: EventInfo, insts: seq<nat>, f: Fate) {
    && (forall k | 0 <= k < |insts| :: Owns(db, info.owner, insts[k]) && f.checks(k).Confirmed?)
    && f.insert.Confirmed? && CanCreate(db, info, insts) && f.status.Confirmed? && PublishesAll(f, |insts|)
  }

  /** The job queue as a publisher sees it. */
  class Queue {
    var ready: map<nat, Delivery>
    var nextTag: nat

    constructor ()
      ensures ready == map[] && nextTag == 0
    {
      ready, nextTag := map[], 0;
    }

    method Publish(m: JobMessage, reply: Reply) returns (ok: bool)
      modifies this
      ensures ok == reply.Confirmed?
      ensures ready == if reply.Effective() then old(ready)[old(nextTag) := Delivery(old(nextTag), m, Retry.NoHeaders)]
                       else old(ready)
      ensures nextTag == if reply.Effective() then old(nextTag) + 1 else old(nextTag)
    {
      if reply.Effective() {
        ready := ready[nextTag := Delivery(nextTag, m, Retry.NoHeaders)];
        nextTag := nextTag + 1;
      }
      ok := reply.Confirmed?;
    }
  }

  class Service {
    const store: Store.Store
    const queue: Queue

    constructor (store: Store.Store, queue: Queue)
      ensures this.store == store && this.queue == queue
    {
      this.store, this.queue := store, queue;
    }

    /** The database and the queue are those of the machine's state. */
    ghost predicate Mirrors(s: State)
      reads this, store, queue
    {
      store.Contents() == s.w.db && queue.ready == s.ready && queue.nextTag == s.nextTag
    }

    /** The publishing loop of Create and RerunFailed, over the rows the database returned. */
    method PublishAll(ev: nat, rows: seq<JobRow>, task: TaskType, f: Fate, ghost su: Setup, ghost s: State,
                      ghost call: nat)
      returns (ok: bool)
      requires Mirrors(s) && Carries(s.w.db, rows)
      requires call in s.calls && s.calls[call] == Publishing(ev, Ids(rows), task, 0)
      modifies queue
      ensures Mirrors(RunCall(su, s, call, f))
      ensures ok <==> PublishesAll(f, |rows|)
    {
      hide RunCall, DoPublish, OnlyCall;
      ghost var t := s;
      for k := 0 to |rows|
        invariant Mirrors(t) && t.w == s.w
        invariant call in t.calls && t.calls[call] == Publishing(ev, Ids(rows), task, k)
        invariant RunCall(su, t, call, f) == RunCall(su, s, call, f)
        invariant forall m | 0 <= m < k :: f.publish(m).Confirmed?
      {
        OneStep(su, t, call, f);
        PublishStep(t, call, f.publish(k));
        var row := rows[k];
        ok := queue.Publish(JobMessage(row.id, row.event, row.inst, task), f.publish(k));
        t := DoPublish(t, call, f.publish(k));
        if !ok {
          AtEnd(su, t, call, f);
          return false;
        }
      }
      OneStep(su, t, call, f);
      AtEnd(su, DoFinish(t, call), call, f);
      return true;
    }

    /** Create's ownership loop, after its input checks. */
    method CheckOwners(info: EventInfo, insts: seq<nat>, f: Fate, ghost su: Setup, ghost s: State, ghost call: nat)
      returns (ok: bool, ghost t: State)
      requires Mirrors(s) && call in s.calls && s.calls[call] == Checking(info, insts, 0)
      ensures Mirrors(t) && RunCall(su, t, call, f) == RunCall(su, s, call, f) && t.w == s.w
      ensures ok <==> forall k | 0 <= k < |insts| :: Owns(s.w.db, info.owner, insts[k]) && f.checks(k).Confirmed?
      ensures if ok then call in t.calls && t.calls[call] == Checking(info, insts, |insts|) else call !in t.calls
    {
      hide RunCall, OnlyCall, DoInsert;
      t := s;
      for k := 0 to |insts|
        invariant Mirrors(t) && t.w == s.w && call in t.calls && t.calls[call] == Checking(info, insts, k)
        invariant RunCall(su, t, call, f) == RunCall(su, s, call, f)
        invariant forall m | 0 <= m < k :: Owns(s.w.db, info.owner, insts[m]) && f.checks(m).Confirmed?
      {
        OneStep(su, t, call, f);
        ok := store.UserOwnsInstance(info.owner, insts[k], f.checks(k));
        t := DoCheck(t, call, f.checks(k));
        if !ok { return; }
      }
      ok := true;
    }

    method Create(input: CreateInput, yaml: string -> bool, f: Fate, ghost su: Setup, ghost s: State, ghost call: nat)
      returns (made: Option<nat>)
      requires Mirrors(s) && call !in s.calls && su.yaml == yaml
      modifies store, queue
      ensures Mirrors(if Acceptable(yaml, input)
                      then RunCall(su, DoStart(s, call, InfoOf(input), input.insts), call, f) else s)
      ensures made == if && input.insts != []
                         && (input.task == DeployConfig || input.task == ValidateConfig ==>
                               input.config.Some? && input.config.value != "" && yaml(input.config.value))
                         && Accepted(s.w.db, InfoOf(input), input.insts, f)
                      then Some(s.w.db.next) else None
    {
      hide RunCall, DoInsert, DoWriteStatus, DoStart, OnlyCall, Mirrors, InfoOf, CanCreate, PublishesAll, Owns;
      if input.insts == [] { return None; }
      if input.task.RequiresConfig() {
        if input.config.None? || input.config.value == "" { return None; }
        if !yaml(input.config.value) { return None; }
      }
      ghost var t := DoStart(s, call, InfoOf(input), input.insts);
      StartStep(s, call, InfoOf(input), input.insts);
      MirrorsFramed(s, t);
      var ok;
      ok, t := CheckOwners(InfoOf(input), input.insts, f, su, t, call);
      if !ok {
        AtEnd(su, t, call, f);
        return None;
      }
      made := Launch(InfoOf(input), input.insts, f, su, t, call);
    }

    lemma MirrorsFramed(s: State, t: State)
      requires Mirrors(s) && t.w.db == s.w.db && t.ready == s.ready && t.nextTag == s.nextTag
      ensures Mirrors(t)
    {
    }

    /** The rest of Create: transaction, RUNNING, publishes. */
    method Launch(info: EventInfo, insts: seq<nat>, f: Fate, ghost su: Setup, ghost s: State, ghost call: nat)
      returns (made: Option<nat>)
      requires Mirrors(s) && call in s.calls && s.calls[call] == Checking(info, insts, |insts|)
      modifies store, queue
      ensures Mirrors(RunCall(su, s, call, f))
      ensures made == if f.insert.Confirmed? && CanCreate(s.w.db, info, insts) && f.status.Confirmed?
                         && PublishesAll(f, |insts|)
                      then Some(s.w.db.next) else None
    {
      hide RunCall, CreateEvent, WriteEventStatus, CanCreate, Elements, OnlyCall, NewRows, Carries;
      OneStep(su, s, call, f);
      ghost var t := DoInsert(s, call, f.now, f.insert);
      var rows := store.CreateEventWithJobs(info, insts, f.now, f.insert);
      if rows.None? {
        AtEnd(su, t, call, f);
        return None;
      }
      var (ev, returned) := rows.value;
      CreatedRows(s.w.db, info, insts, f.now);
      OneStep(su, t, call, f);
      ghost var u := DoWriteStatus(t, call, f.status);
      var ok := store.UpdateEventStatus(ev, EventRunning, f.status);
      if !ok {
        AtEnd(su, u, call, f);
        return None;
      }
      CarriesOn(t.w.db, u.w.db, returned);
      ok := PublishAll(ev, returned, info.task, f, su, u, call);
      made := if ok then Some(ev) else None;
    }

    /** `jobs` is the order in which the UPDATE returned the rows it reset. */
    method RerunFailed(ev: nat, user: string, admin: bool, f: Fate, ghost su: Setup, ghost s: State, ghost call: nat)
      returns (ok: bool, ghost jobs: seq<nat>)
      requires Mirrors(s) && call !in s.calls
      modifies store, queue
      ensures ListsFailed(s.w.db, ev, jobs)
      ensures var permitted := admin || (f.owner.Confirmed? && OwnsEvent(s.w.db, user, ev));
        && Mirrors(if permitted then RunCall(su, AfterReset(s, call, ev, jobs, f), call, f) else s)
        && (ok <==> permitted && f.reset.Confirmed? && f.status.Confirmed? && f.read.Confirmed? && ev in s.w.db.events
                    && PublishesAll(f, |jobs|))
    {
      hide RunCall, AfterReset, ListsFailed;
      if !admin {
        var owns := store.UserOwnsEvent(user, ev, f.owner);
        if !owns {
          jobs := SomeFailed(s.w.db, ev);
          return false, jobs;
        }
      }
      ok, jobs := ResetAndPublish(ev, f, su, s, call);
    }

    method ResetAndPublish(ev: nat, f: Fate, ghost su: Setup, ghost s: State, ghost call: nat)
      returns (ok: bool, ghost jobs: seq<nat>)
      requires Mirrors(s) && call !in s.calls
      modifies store, queue
      ensures ListsFailed(s.w.db, ev, jobs) && Mirrors(RunCall(su, AfterReset(s, call, ev, jobs, f), call, f))
      ensures ok <==> f.reset.Confirmed? && f.status.Confirmed? && f.read.Confirmed? && ev in s.w.db.events
                      && PublishesAll(f, |jobs|)
    {
      hide RunCall, AfterReset, DoReset, DoWriteStatus, ResetFailed, WriteEventStatus, OnlyCall, JobsIn;
      hide ListsFailed, Lists, Carries;
      jobs := SomeFailed(s.w.db, ev);
      var rows := store.ResetFailedJobs(ev, f.reset, f.late, f.status);
      if rows.Some? {
        jobs := Ids(rows.value);
        SameListing(s.w.db, ev, jobs);
      }
      ghost var t := AfterReset(s, call, ev, jobs, f);
      ResetStep(s, call, ev, jobs, f);
      if !f.reset.Confirmed? && !f.late {
        AtEnd(su, t, call, f);
        return false, jobs;
      }
      ghost var u := DoWriteStatus(t, call, f.status);
      StatusStep(su, t, call, f);
      if rows.None? {
        AtEnd(su, u, call, f);
        return false, jobs;
      }
      SameKeys(s.w.db, ev);
      SameColumns(s.w.db, u.w.db, ev);
      CarriesOn(s.w.db, u.w.db, rows.value);
      ok := PublishReset(ev, rows.value, f, su, u, call);
    }

    /** The read-back and the publishes of RerunFailed. */
    method PublishReset(ev: nat, rows: seq<JobRow>, f: Fate, ghost su: Setup, ghost s: State, ghost call: nat)
      returns (ok: bool)
      requires Mirrors(s) && Carries(s.w.db, rows) && call in s.calls && s.calls[call] == NeedEvent(ev, Ids(rows))
      modifies queue
      ensures Mirrors(RunCall(su, s, call, f))
      ensures ok <==> f.read.Confirmed? && ev in s.w.db.events && PublishesAll(f, |rows|)
    {
      hide RunCall, Elements, OnlyCall, Carries;
      OneStep(su, s, call, f);
      ghost var t := DoReadBack(s, call, f.read);
      var event := store.GetEvent(ev, f.read);
      if event.None? {
        AtEnd(su, t, call, f);
        return false;
      }
      ok := PublishAll(ev, rows, event.value.0.info.task, f, su, t, call);
    }

    /** Clone starts from the source's fields and overwrites what the overrides give. */
    method CloneRecord(src: Event, listing: seq<nat>, user: string, over: CreateInput) returns (input: CreateInput)
      ensures input == CloneInput(src, listing, user, over)
    {
      input := CreateInput(user, src.info.name + " (clone)", src.info.launcherName, src.info.launcherEmail,
                           src.info.task, src.info.config, listing, None, None);
      if over.name != "" { input := input.(name := over.name); }
      if over.launcherName != "" { input := input.(launcherName := over.launcherName); }
      if over.launcherEmail != "" { input := input.(launcherEmail := over.launcherEmail); }
      if over.config.Some? { input := input.(config := over.config); }
      if |over.insts| > 0 { input := input.(insts := over.insts); }
    }

    /** `listing` is the order in which the targets were listed. */
    method Clone(source: nat, user: string, over: CreateInput, yaml: string -> bool, f: Fate,
                 ghost su: Setup, ghost s: State, ghost call: nat)
      returns (made: Option<nat>, ghost listing: seq<nat>)
      requires Mirrors(s) && call !in s.calls && su.yaml == yaml
      modifies store, queue
      ensures source in s.w.db.events ==> Lists(listing, s.w.db.events[source].targets)
      ensures if f.event.Confirmed? && f.owner.Confirmed? && OwnsEvent(s.w.db, user, source)
        then
          var input := CloneInput(s.w.db.events[source], listing, user, over);
          && Mirrors(if Acceptable(yaml, input)
                     then RunCall(su, DoStart(s, call, InfoOf(input), input.insts), call, f) else s)
          && made == (if Acceptable(yaml, input) && Accepted(s.w.db, InfoOf(input), input.insts, f)
                      then Some(s.w.db.next) else None)
        else Mirrors(s) && made == None
    {
      hide RunCall, DoStart, Lists, Accepted, InfoOf;
      listing := SomeListing(if source in s.w.db.events then s.w.db.events[source].targets else {});
      var src := store.GetEvent(source, f.event);
      if src.None? { return None, listing; }
      listing := src.value.1;
      var owns := store.UserOwnsEvent(user, source, f.owner);
      if !owns { return None, listing; }
      var input := CloneRecord(src.value.0, src.value.1, user, over);
      made := Create(input, yaml, f, su, s, call);
    }

    /** The handler of a job's rollback, for its event's owner or an administrator. */
    method RollbackJob(ev: nat, job: nat, user: string, email: string, admin: bool, yaml: string -> bool,
                       events: Reply, jobs: Reply, f: Fate, ghost su: Setup, ghost s: State, ghost call: nat)
      returns (made: Option<nat>)
      requires Mirrors(s) && call !in s.calls && su.yaml == yaml
      modifies store, queue
      ensures if events.Confirmed? && jobs.Confirmed? && ev in s.w.db.events
                 && (admin || s.w.db.events[ev].info.owner == user)
                 && job in s.w.db.jobs && s.w.db.jobs[job].event == ev
        then
          var input := RollbackInput(ev, s.w.db.events[ev], s.w.db.jobs[job].inst, user, email);
          && Mirrors(RunCall(su, DoStart(s, call, InfoOf(input), input.insts), call, f))
          && made == (if Accepted(s.w.db, InfoOf(input), input.insts, f) then Some(s.w.db.next) else None)
        else Mirrors(s) && made == None
    {
      hide RunCall, DoStart, Accepted;
      var src := store.GetEvent(ev, events);
      if src.None? || (src.value.0.info.owner != user && !admin) { return None; }
      var row := store.GetJob(job, jobs);
      if row.None? || row.value.event != ev { return None; }
      made := Create(RollbackInput(ev, src.value.0, row.value.inst, user, email), yaml, f, su, s, call);
    }
  }

  // ---------- what a successful request leaves behind ----------

  /** The queue of `s` with these messages behind it, in this order and without headers; consumers and dead
      letters are as they were and the call is over. */
  ghost predicate Sent(s: State, s': State, call: nat, ms: seq<JobMessage>) {
    && s'.nextTag == s.nextTag + |ms|
    && (forall t | t < s.nextTag || s.nextTag + |ms| <= t ::
          (t in s'.ready <==> t in s.ready) && (t in s.ready ==> s'.ready[t] == s.ready[t]))
    && (forall t | s.nextTag <= t < s.nextTag + |ms| ::
          t in s'.ready && s'.ready[t] == Delivery(t, ms[t - s.nextTag], Retry.NoHeaders))
    && s'.cons == s.cons && s'.dlq == s.dlq && call !in s'.calls
  }

  /** The messages for these jobs, as their rows have them. */
  function Messages(db: Db, jobs: seq<nat>, task: TaskType): (ms: seq<JobMessage>)
    ensures |ms| == |jobs|
  {
    seq(|jobs|, k requires 0 <= k < |jobs| => MessageFor(db, jobs[k], task))
  }

  lemma SentOneMore(s: State, t: State, s': State, call: nat, m: JobMessage, ms: seq<JobMessage>)
    requires t.nextTag == s.nextTag + 1 && t.ready == s.ready[s.nextTag := Delivery(s.nextTag, m, Retry.NoHeaders)]
    requires t.cons == s.cons && t.dlq == s.dlq && Sent(t, s', call, ms)
    ensures Sent(s, s', call, [m] + ms)
  {
  }

  lemma {:induction false} AllPublished(su: Setup, s: State, call: nat, f: Fate)
    requires call in s.calls && s.calls[call].Publishing? && s.calls[call].pos <= |s.calls[call].jobs|
    requires forall k | s.calls[call].pos <= k < |s.calls[call].jobs| :: f.publish(k).Confirmed?
    ensures var c, s' := s.calls[call], RunCall(su, s, call, f);
      s'.w == s.w && Sent(s, s', call, Messages(s.w.db, c.jobs[c.pos..], c.task))
    decreases |s.calls[call].jobs| - s.calls[call].pos
  {
    hide RunCall, MessageFor, DoPublish, Sent;
    var c := s.calls[call];
    OneStep(su, s, call, f);
    if c.pos == |c.jobs| {
      AtEnd(su, DoFinish(s, call), call, f);
      NoneSent(s, call);
    } else {
      var t := DoPublish(s, call, f.publish(c.pos));
      PublishStep(s, call, f.publish(c.pos));
      AllPublished(su, t, call, f);
      var m := MessageFor(s.w.db, c.jobs[c.pos], c.task);
      SentOneMore(s, t, RunCall(su, t, call, f), call, m, Messages(s.w.db, c.jobs[c.pos + 1..], c.task));
      assert Messages(s.w.db, c.jobs[c.pos..], c.task) == [m] + Messages(s.w.db, c.jobs[c.pos + 1..], c.task);
    }
  }

  lemma NoneSent(s: State, call: nat)
    requires call in s.calls && s.calls[call].Publishing? && s.calls[call].pos >= |s.calls[call].jobs|
    ensures Sent(s, DoFinish(s, call), call, [])
  {
  }

  lemma {:induction false} AllChecked(su: Setup, s: State, call: nat, f: Fate)
    requires call in s.calls && s.calls[call].Checking? && s.calls[call].checked <= |s.calls[call].insts|
    requires var c := s.calls[call];
      forall k | c.checked <= k < |c.insts| :: Owns(s.w.db, c.info.owner, c.insts[k]) && f.checks(k).Confirmed?
    ensures var c := s.calls[call];
      RunCall(su, s, call, f) == RunCall(su, SetCall(s, call, c.(checked := |c.insts|)), call, f)
    decreases |s.calls[call].insts| - s.calls[call].checked
  {
    hide RunCall, OnlyCall;
    var c := s.calls[call];
    if c.checked == |c.insts| {
      assert SetCall(s, call, c.(checked := |c.insts|)) == s;
    } else {
      OneStep(su, s, call, f);
      var t := DoCheck(s, call, f.checks(c.checked));
      AllChecked(su, t, call, f);
      assert SetCall(t, call, c.(checked := |c.insts|)) == SetCall(s, call, c.(checked := |c.insts|));
    }
  }

  /** One new event with this row and these targets: QUEUED jobs `e + 1` onwards, one for each target in order;
      every other row of every table is as it was. */
  ghost predicate Added(db: Db, db': Db, row: Event, insts: seq<nat>) {
    && db'.instances == db.instances && db'.events == db.events[db.next := row]
    && (forall j :: j in db'.jobs <==> j in db.jobs || db.next < j <= db.next + |insts|)
    && (forall j | j in db.jobs :: db'.jobs[j] == db.jobs[j])
    && (forall k | 0 <= k < |insts| ::
          db.next + 1 + k in db'.jobs && db'.jobs[db.next + 1 + k] == Job(db.next, insts[k], JobQueued, None))
  }

  /** A Create that succeeds, undisturbed: the event row has every field of the input, the digest of its
      configuration and all its targets, and is RUNNING; there is one job and one message for each target. */
  lemma CreatedEvent(su: Setup, s: State, call: nat, input: CreateInput, f: Fate)
    requires call !in s.calls && WellFormed(s.w.db) && Accepted(s.w.db, InfoOf(input), input.insts, f)
    ensures var s' := RunCall(su, DoStart(s, call, InfoOf(input), input.insts), call, f);
      var e, n := s.w.db.next, |input.insts|;
      var info := EventInfo(input.owner, input.name, input.launcherName, input.launcherEmail, input.task, input.config,
                            if input.config.Some? then Some(Sha256(input.config.value)) else None,
                            input.related, input.scope);
      && Added(s.w.db, s'.w.db, Event(info, Elements(input.insts), f.now, EventRunning, n, 0, 0), input.insts)
      && Sent(s, s', call, seq(n, k requires 0 <= k < n => JobMessage(e + 1 + k, e, input.insts[k], input.task)))
  {
    hide RunCall, DoInsert, DoWriteStatus, OnlyCall, Sent, Added, CanCreate, WellFormed;
    var info, insts := InfoOf(input), input.insts;
    var e := s.w.db.next;
    var s0 := DoStart(s, call, info, insts);
    AllChecked(su, s0, call, f);
    var s1 := SetCall(s0, call, Checking(info, insts, |insts|));
    OneStep(su, s1, call, f);
    var s2 := DoInsert(s1, call, f.now, f.insert);
    InsertDone(s1, call, f);
    OneStep(su, s2, call, f);
    var s3 := DoWriteStatus(s2, call, f.status);
    StatusDone(s2, call, f.status);
    AllPublished(su, s3, call, f);
    NewEventAdded(s.w.db, info, insts, f.now);
    var jobs := JobIds(s.w.db, |insts|);
    assert jobs[0..] == jobs;
    NewMessages(s.w.db, s3.w.db, info, insts, f.now, input.task);
    SentFrom(s, s3, RunCall(su, s3, call, f), call, Messages(s3.w.db, jobs, input.task));
  }

  lemma SentFrom(s: State, t: State, s': State, call: nat, ms: seq<JobMessage>)
    requires Sent(t, s', call, ms)
    requires t.ready == s.ready && t.nextTag == s.nextTag && t.cons == s.cons && t.dlq == s.dlq
    ensures Sent(s, s', call, ms)
  {
  }

  lemma InsertDone(s: State, call: nat, f: Fate)
    requires call in s.calls && s.calls[call].Checking? && f.insert.Confirmed?
    requires CanCreate(s.w.db, s.calls[call].info, s.calls[call].insts)
    ensures var c, s' := s.calls[call], DoInsert(s, call, f.now, f.insert);
      && s'.w.db == CreateEvent(s.w.db, c.info, c.insts, f.now)
      && call in s'.calls
      && s'.calls[call] == NeedStatus(s.w.db.next, JobIds(s.w.db, |c.insts|), false, c.info.task, false)
      && s'.cons == s.cons && s'.dlq == s.dlq
  {
    hide CreateEvent, CanCreate, JobIds;
  }

  lemma StatusDone(s: State, call: nat, reply: Reply)
    requires call in s.calls && s.calls[call].NeedStatus? && reply.Confirmed? && !s.calls[call].late
    ensures var c, s' := s.calls[call], DoWriteStatus(s, call, reply);
      && s'.w.db == WriteEventStatus(s.w.db, c.ev, EventRunning)
      && call in s'.calls && s'.cons == s.cons && s'.dlq == s.dlq
      && s'.calls[call] == (if c.rerun then NeedEvent(c.ev, c.jobs) else Publishing(c.ev, c.jobs, c.task, 0))
  {
    hide WriteEventStatus, Elements;
  }

  lemma NewEventAdded(db: Db, info: EventInfo, insts: seq<nat>, now: int)
    requires WellFormed(db)
    ensures Added(db, WriteEventStatus(CreateEvent(db, info, insts, now), db.next, EventRunning),
                  Event(info, Elements(insts), now, EventRunning, |insts|, 0, 0), insts)
  {
    hide JobIds, Linked, Elements, CreateEvent;
    NewRowRunning(db, info, insts, now);
    NewJobsOnly(db, info, insts, now);
    forall k | 0 <= k < |insts| { CreatedRow(db, info, insts, now, k); }
  }

  lemma NewRowRunning(db: Db, info: EventInfo, insts: seq<nat>, now: int)
    ensures WriteEventStatus(CreateEvent(db, info, insts, now), db.next, EventRunning).events
            == db.events[db.next := Event(info, Elements(insts), now, EventRunning, |insts|, 0, 0)]
    ensures CreateEvent(db, info, insts, now).instances == db.instances
  {
    hide JobIds, Elements;
  }

  lemma NewJobsOnly(db: Db, info: EventInfo, insts: seq<nat>, now: int)
    requires WellFormed(db)
    ensures var jobs' := CreateEvent(db, info, insts, now).jobs;
      && (forall j :: j in jobs' <==> j in db.jobs || db.next < j <= db.next + |insts|)
      && (forall j | j in db.jobs :: jobs'[j] == db.jobs[j])
  {
    hide Linked, Elements, JobIds;
    var ids := JobIds(db, |insts|);
    forall j | db.next < j <= db.next + |insts| ensures j in ids { assert ids[j - db.next - 1] == j; }
  }

  lemma NewMessages(db: Db, db': Db, info: EventInfo, insts: seq<nat>, now: int, task: TaskType)
    requires db'.jobs == CreateEvent(db, info, insts, now).jobs
    ensures var n := |insts|;
      Messages(db', JobIds(db, n), task) ==
      seq(n, k requires 0 <= k < n => JobMessage(db.next + 1 + k, db.next, insts[k], task))
  {
    hide CreateEvent, JobIds;
    forall k | 0 <= k < |insts|
      ensures MessageFor(db', JobIds(db, |insts|)[k], task) == JobMessage(db.next + 1 + k, db.next, insts[k], task)
    {
      CreatedRow(db, info, insts, now, k);
    }
  }

  /** The clone has the source's task and targets and the source's other fields, each unless overridden. */
  lemma ClonedEvent(su: Setup, s: State, call: nat, src: Event, listing: seq<nat>, user: string, over: CreateInput,
                    f: Fate)
    requires call !in s.calls && WellFormed(s.w.db) && Lists(listing, src.targets)
    requires var input := CloneInput(src, listing, user, over); Accepted(s.w.db, InfoOf(input), input.insts, f)
    ensures var input := CloneInput(src, listing, user, over);
      var db' := RunCall(su, DoStart(s, call, InfoOf(input), input.insts), call, f).w.db;
      s.w.db.next in db'.events &&
      var row := db'.events[s.w.db.next];
      && row.info.owner == user && row.info.task == src.info.task && row.info.related == None && row.info.scope == None
      && row.info.name == (if over.name == "" then src.info.name + " (clone)" else over.name)
      && row.info.launcherName == (if over.launcherName == "" then src.info.launcherName else over.launcherName)
      && row.info.launcherEmail == (if over.launcherEmail == "" then src.info.launcherEmail else over.launcherEmail)
      && row.info.config == (if over.config.None? then src.info.config else over.config)
      && row.info.checksum == (if row.info.config.None? then None else Some(Sha256(row.info.config.value)))
      && row.targets == (if over.insts == [] then src.targets else Elements(over.insts))
  {
    hide RunCall, DoStart, Accepted, Sent, WellFormed;
    CreatedEvent(su, s, call, CloneInput(src, listing, user, over), f);
  }

  /** The rollback of a job: one event with that job's instance as its only target, tied to the job's event. */
  lemma RollbackEvent(su: Setup, s: State, call: nat, ev: nat, src: Event, inst: nat, user: string, email: string,
                      f: Fate)
    requires call !in s.calls && WellFormed(s.w.db)
    requires var input := RollbackInput(ev, src, inst, user, email); Accepted(s.w.db, InfoOf(input), input.insts, f)
    ensures var input := RollbackInput(ev, src, inst, user, email);
      var s' := RunCall(su, DoStart(s, call, InfoOf(input), input.insts), call, f);
      var e := s.w.db.next;
      && e in s'.w.db.events && s'.w.db.events[e].targets == {inst} && s'.w.db.events[e].status == EventRunning
      && s'.w.db.events[e].info ==
           EventInfo(user, "Rollback " + src.info.name, email, email, RollbackConfig, None, None, Some(ev),
                     Some("instance"))
      && e + 1 in s'.w.db.jobs && s'.w.db.jobs[e + 1] == Job(e, inst, JobQueued, None)
      && Sent(s, s', call, [JobMessage(e + 1, e, inst, RollbackConfig)])
  {
    hide RunCall, DoStart, Accepted, Sent, WellFormed;
    var e := s.w.db.next;
    CreatedEvent(su, s, call, RollbackInput(ev, src, inst, user, email), f);
    assert seq(1, k requires 0 <= k < 1 => JobMessage(e + 1 + k, e, [inst][k], RollbackConfig))
           == [JobMessage(e + 1, e, inst, RollbackConfig)];
    assert e + 1 + 0 == e + 1;
  }

  /** A rerun that succeeds, undisturbed: exactly the event's FAILED jobs are QUEUED, without an exit status,
      each has one message, in the order of the listing, and the event is RUNNING; nothing else changes. */
  lemma RerunEvent(su: Setup, s: State, call: nat, ev: nat, jobs: seq<nat>, f: Fate)
    requires call !in s.calls && ListsFailed(s.w.db, ev, jobs) && ev in s.w.db.events
    requires f.reset.Confirmed? && f.status.Confirmed? && f.read.Confirmed? && PublishesAll(f, |jobs|)
    ensures var s' := RunCall(su, AfterReset(s, call, ev, jobs, f), call, f);
      var db, db' := s.w.db, s'.w.db;
      && db'.instances == db.instances && db'.events == db.events[ev := db.events[ev].(status := EventRunning)]
      && db'.jobs.Keys == db.jobs.Keys
      && (forall j | j in db.jobs :: db'.jobs[j] ==
            if db.jobs[j].event == ev && db.jobs[j].status == JobFailed
            then Job(ev, db.jobs[j].inst, JobQueued, None) else db.jobs[j])
      && (forall k | 0 <= k < |jobs| :: jobs[k] in db.jobs)
      && Sent(s, s', call, seq(|jobs|, k requires 0 <= k < |jobs| && jobs[k] in db.jobs =>
                JobMessage(jobs[k], ev, db.jobs[jobs[k]].inst, db.events[ev].info.task)))
  {
    hide RunCall, AfterReset, DoWriteStatus, DoReadBack, OnlyCall, Sent, ListsFailed, ResetFailed, WriteEventStatus;
    var s1 := AfterReset(s, call, ev, jobs, f);
    ResetStep(s, call, ev, jobs, f);
    ResetAside(s, call, ev, jobs, f);
    OneStep(su, s1, call, f);
    var s2 := DoWriteStatus(s1, call, f.status);
    StatusDone(s1, call, f.status);
    ResetRowsExactly(s.w.db, ev);
    OneStep(su, s2, call, f);
    var task := s.w.db.events[ev].info.task;
    var s3 := DoReadBack(s2, call, f.read);
    ReadDone(s2, call, f.read);
    AllPublished(su, s3, call, f);
    assert jobs[0..] == jobs;
    FailedMessages(s.w.db, s3.w.db, ev, jobs, task);
    SentFrom(s, s3, RunCall(su, s3, call, f), call, Messages(s3.w.db, jobs, task));
  }

  lemma ResetAside(s: State, call: nat, ev: nat, jobs: seq<nat>, f: Fate)
    requires call !in s.calls && f.reset.Confirmed?
    ensures var s' := AfterReset(s, call, ev, jobs, f); s'.cons == s.cons && s'.dlq == s.dlq
  {
    hide ResetFailed, Elements;
  }

  lemma ReadDone(s: State, call: nat, reply: Reply)
    requires call in s.calls && s.calls[call].NeedEvent? && reply.Confirmed? && s.calls[call].ev in s.w.db.events
    ensures var c, s' := s.calls[call], DoReadBack(s, call, reply);
      && s'.w == s.w && call in s'.calls && s'.cons == s.cons && s'.dlq == s.dlq
      && s'.calls[call] == Publishing(c.ev, c.jobs, s.w.db.events[c.ev].info.task, 0)
  {
    hide Elements;
  }

  lemma ResetRowsExactly(db: Db, ev: nat)
    requires ev in db.events
    ensures var db' := WriteEventStatus(ResetFailed(db, ev), ev, EventRunning);
      && db'.instances == db.instances && db'.events == db.events[ev := db.events[ev].(status := EventRunning)]
      && db'.jobs.Keys == db.jobs.Keys
      && (forall j | j in db.jobs :: db'.jobs[j] ==
            if db.jobs[j].event == ev && db.jobs[j].status == JobFailed
            then Job(ev, db.jobs[j].inst, JobQueued, None) else db.jobs[j])
  {
  }

  lemma FailedMessages(db: Db, db': Db, ev: nat, jobs: seq<nat>, task: TaskType)
    requires ListsFailed(db, ev, jobs) && db'.jobs == ResetFailed(db, ev).jobs
    ensures forall k | 0 <= k < |jobs| :: jobs[k] in db.jobs
    ensures Messages(db', jobs, task) ==
            seq(|jobs|, k requires 0 <= k < |jobs| && jobs[k] in db.jobs =>
              JobMessage(jobs[k], ev, db.jobs[jobs[k]].inst, task))
  {
    forall k | 0 <= k < |jobs| ensures jobs[k] in db.jobs && db.jobs[jobs[k]].event == ev {
      assert jobs[k] in Elements(jobs);
    }
  }

  lemma StartStep(s: State, call: nat, info: EventInfo, insts: seq<nat>)
    requires call !in s.calls
    ensures var s' := DoStart(s, call, info, insts);
      && s'.w == s.w && s'.ready == s.ready && s'.nextTag == s.nextTag
      && s'.calls == s.calls[call := Checking(info, insts, 0)]
  {
  }

  lemma PublishStep(s: State, call: nat, reply: Reply)
    requires call in s.calls && s.calls[call].Publishing? && s.calls[call].pos < |s.calls[call].jobs|
    ensures var c, s' := s.calls[call], DoPublish(s, call, reply);
      && s'.ready == (if reply.Effective()
           then s.ready[s.nextTag :=
                  Delivery(s.nextTag, MessageFor(s.w.db, c.jobs[c.pos], c.task), Retry.NoHeaders)]
           else s.ready)
      && s'.nextTag == (if reply.Effective() then s.nextTag + 1 else s.nextTag)
      && (if reply.Confirmed? then call in s'.calls && s'.calls[call] == c.(pos := c.pos + 1) else call !in s'.calls)
  {
    hide MessageFor, OnlyCall, Elements;
  }

  lemma {:induction false} SomeListing(rows: set<nat>) returns (listing: seq<nat>)
    ensures Lists(listing, rows)
    decreases |rows|
  {
    if rows == {} {
      listing := [];
    } else {
      var r :| r in rows;
      var rest := SomeListing(rows - {r});
      listing := rest + [r];
      assert r !in Elements(rest);
      assert Elements(listing) == Elements(rest) + {r};
    }
  }

  lemma ResetStep(s: State, call: nat, ev: nat, jobs: seq<nat>, f: Fate)
    requires call !in s.calls
    ensures var s' := AfterReset(s, call, ev, jobs, f);
      && s'.w.db == (if f.reset.Effective() then ResetFailed(s.w.db, ev) else s.w.db)
      && s'.ready == s.ready && s'.nextTag == s.nextTag
      && (if f.reset.Confirmed? then
            call in s'.calls && s'.calls[call] == NeedStatus(ev, jobs, true, UnknownTask(""), false)
          else if f.late then call in s'.calls && s'.calls[call] == LateCall(ev, jobs, f.reset)
          else call !in s'.calls)
  {
    hide ResetFailed, Elements, OnlyCall;
  }

  lemma StatusStep(su: Setup, s: State, call: nat, f: Fate)
    requires call in s.calls && s.calls[call].NeedStatus? && s.calls[call].rerun
    ensures var s', c := DoWriteStatus(s, call, f.status), s.calls[call];
      && RunCall(su, s, call, f) == RunCall(su, s', call, f)
      && (if f.status.Confirmed? && !c.late then call in s'.calls && s'.calls[call] == NeedEvent(c.ev, c.jobs)
          else call !in s'.calls)
  {
    hide RunCall, WriteEventStatus, Elements, OnlyCall;
    OneStep(su, s, call, f);
  }

  lemma SameColumns(db: Db, db': Db, ev: nat)
    requires db'.jobs == ResetFailed(db, ev).jobs
    ensures forall j | j in db.jobs ::
              j in db'.jobs && db'.jobs[j].event == db.jobs[j].event && db'.jobs[j].inst == db.jobs[j].inst
  {
  }

  lemma SameListing(db: Db, ev: nat, jobs: seq<nat>)
    requires Lists(jobs, JobsIn(db, ev, JobFailed))
    ensures ListsFailed(db, ev, jobs)
  {
  }

  lemma SomeFailed(db: Db, ev: nat) returns (jobs: seq<nat>)
    ensures ListsFailed(db, ev, jobs)
  {
    jobs := SomeListing(JobsIn(db, ev, JobFailed));
  }

  lemma SameKeys(db: Db, ev: nat)
    ensures WriteEventStatus(ResetFailed(db, ev), ev, EventRunning).events.Keys == db.events.Keys
  {
    hide ResetFailed, WriteEventStatus;
  }

  /** Every reply the call gets, as far as it runs, is one this setup allows. */
  ghost predicate Permitted(su: Setup, s: State, call: nat, f: Fate)
    decreases Weight(s, call)
  {
    call in s.calls ==>
      var a := Api(call, NextStep(s.calls[call], f));
      WeightFalls(su, s, call, f);
      Allowed(su, s, a) && Permitted(su, DoCall(su, s, call, a.step), call, f)
  }

  /** What these methods compute is a run of the machine in every setup that allows the replies they got, so
      everything proved of reachable states, with faults or without, holds of the states they leave behind. */
  lemma {:induction false} CallIsARun(su: Setup, run: seq<Action>, call: nat, f: Fate) returns (run': seq<Action>)
    requires Legal(su, run) && Permitted(su, After(su, run), call, f)
    ensures run <= run' && Legal(su, run') && After(su, run') == RunCall(su, After(su, run), call, f)
    decreases Weight(After(su, run), call)
  {
    hide DoCall, CanCall, NextStep, Weight, Allowed;
    var s := After(su, run);
    if call !in s.calls {
      run' := run;
    } else {
      var a := Api(call, NextStep(s.calls[call], f));
      WeightFalls(su, s, call, f);
      run' := Act(su, run, a);
      run' := CallIsARun(su, run', call, f);
    }
  }
}
