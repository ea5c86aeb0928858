/** What the places of Tokens give without faults: one token per job, VERIFIED is for good, and a bound on
    how many jobs run at once. */
module OneToken {
  import opened Types
  import opened Sql
  import opened Handler
  import opened Machine
  import opened Structure
  import opened Tokens

  /** In every reachable state a QUEUED or RUNNING job waits in exactly one place (a call's list, the queue,
      or a consumer before its result), and any other job in none. */
  lemma OneTokenPerJob(su: Setup, run: seq<Action>, j: nat)
    requires su.FaultFree() && Legal(su, run) && j in After(su, run).w.db.jobs
    ensures var s := After(su, run);
      && (s.w.db.jobs[j].status.Pending() <==> exists loc :: At(s, loc) == Some(j))
      && (forall l1, l2 | At(s, l1) == Some(j) && At(s, l2) == Some(j) :: l1 == l2)
      && (forall loc | At(s, loc) == Some(j) :: s.w.db.jobs[j].status == StatusAt(s, loc))
  {
    hide At, StatusAt, Structured;
    var tok := ReachableOrderly(su, run);
    assert Placed(After(su, run), tok);
  }

  // ---------- VERIFIED is absorbing ----------

  ghost predicate StaysVerified(db: Db, db': Db) {
    forall j | j in db.jobs && db.jobs[j].status.JobVerified? :: j in db'.jobs && db'.jobs[j] == db.jobs[j]
  }

  /** Although MarkJob and WriteJobResult are unguarded, a step never touches a VERIFIED row: only the holder
      of a token writes, and only a pending job has one. */
  lemma VerifiedStep(su: Setup, s: State, a: Action, tok: map<nat, Loc>)
    requires su.FaultFree() && Enabled(su, s, a) && Allowed(su, s, a) && Orderly(s, tok)
    ensures StaysVerified(s.w.db, Apply(su, s, a).w.db)
  {
    hide CanCall, DoCall, DoWork, DoSettle, DoDeliver, CanDelete, Step, TagsOk, RowsOk, ReadsOk, WellFormed, Clean;
    hide CanSettle;
    match a
    case Api(call, step) => VerifiedCall(su, s, call, step);
    case Work(i, io) => VerifiedWork(su, s, i, io, tok);
    case _ =>
  }

  lemma VerifiedCall(su: Setup, s: State, call: nat, step: ApiStep)
    requires CanCall(su, s, call, step) && ActionReply(Api(call, step)).Confirmed? && WellFormed(s.w.db)
    ensures StaysVerified(s.w.db, DoCall(su, s, call, step).w.db)
  {
    hide WellFormed, ListsFailed, ValidInput, DoInsert, DoReset, DoPublish, DoWriteStatus;
    match step
    case Insert(now, reply) => InsertJobs(s, call, now, reply);
    case Reset(ev, jobs, reply) => ResetJobs(s, call, ev, jobs, reply);
    case ResetLate(ev, jobs, reply) => assert false;
    case WriteStatus(reply) => StatusKeepsJobs(s, call, reply);
    case _ =>
  }

  lemma VerifiedWork(su: Setup, s: State, i: nat, io: Io, tok: map<nat, Loc>)
    requires i < |s.cons| && s.cons[i].Busy? && Fits(s.cons[i].pc, io) && Placed(s, tok)
    ensures StaysVerified(s.w.db, DoWork(su, s, i, io).w.db)
  {
    hide DoWork, Step, StatusAt;
    var c := s.cons[i];
    WorkJobs(s.w, c.d.body.job, c.pc, io, su.valid);
    assert c.pc.Early() ==> At(s, InCons(i)) == Some(c.d.body.job);
  }

  lemma {:induction false} LegalPrefix(su: Setup, run: seq<Action>, k: nat)
    requires Legal(su, run) && k <= |run|
    ensures Legal(su, run[..k])
  {
    hide Enabled, Allowed, Apply;
    if k < |run| {
      LegalPrefix(su, run[..|run| - 1], k);
      assert run[..|run| - 1][..k] == run[..k];
    } else {
      assert run[..k] == run;
    }
  }

  /** Once VERIFIED, a job's row never changes again in a run without faults. */
  lemma {:induction false} VerifiedIsAbsorbing(su: Setup, run: seq<Action>, k: nat)
    requires su.FaultFree() && Legal(su, run) && k <= |run|
    ensures Legal(su, run[..k])
    ensures StaysVerified(After(su, run[..k]).w.db, After(su, run).w.db)
  {
    hide Enabled, Allowed, Apply, Orderly;
    LegalPrefix(su, run, k);
    if k == |run| {
      assert run[..k] == run;
    } else {
      var before, a := run[..|run| - 1], run[|run| - 1];
      VerifiedIsAbsorbing(su, before, k);
      assert before[..k] == run[..k];
      var tok := ReachableOrderly(su, before);
      VerifiedStep(su, After(su, before), a, tok);
    }
  }

  // ---------- at most N jobs run ----------

  function RunningJobs(db: Db): set<nat> {
    set j | j in db.jobs && db.jobs[j].status.JobRunning?
  }

  lemma {:induction false} InjectionSize(xs: set<nat>, f: map<nat, nat>, n: nat)
    requires forall x | x in xs :: x in f && f[x] < n
    requires forall x, y | x in xs && y in xs && f[x] == f[y] :: x == y
    ensures |xs| <= n
  {
    if n == 0 {
      assert xs == {};
    } else if x :| x in xs && f[x] == n - 1 {
      InjectionSize(xs - {x}, f, n - 1);
    } else {
      InjectionSize(xs, f, n - 1);
    }
  }

  /** With N consumers, each with one unacknowledged message, at most N jobs are RUNNING. */
  lemma AtMostNRunning(su: Setup, run: seq<Action>)
    requires su.FaultFree() && Legal(su, run)
    ensures |RunningJobs(After(su, run).w.db)| <= su.consumers
  {
    hide Structured;
    var s := After(su, run);
    var tok := ReachableOrderly(su, run);
    ReachableStructured(su, run);
    var running := RunningJobs(s.w.db);
    RunningHeld(s, tok);
    var f := map j | j in running :: if tok[j].InCons? then tok[j].i else 0;
    InjectionSize(running, f, su.consumers);
  }

  lemma RunningHeld(s: State, tok: map<nat, Loc>)
    requires Placed(s, tok)
    ensures forall j | j in RunningJobs(s.w.db) ::
              j in tok && tok[j].InCons? && tok[j].i < |s.cons| && At(s, tok[j]) == Some(j)
  {
    forall j | j in RunningJobs(s.w.db)
      ensures j in tok && tok[j].InCons? && tok[j].i < |s.cons| && At(s, tok[j]) == Some(j)
    {
      assert At(s, tok[j]) == Some(j);
      assert StatusAt(s, tok[j]) == JobRunning;
    }
  }
}
