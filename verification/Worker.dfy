/** The worker's loop: Consume with Handle as its handler, over the broker's two queues, proved to be a run of
    one of the machine's consumers that nothing interleaves with. */
module Worker {
  import opened Types
  import opened Handler
  import opened Machine
  import Broker
  import Retry
  import Runner
  import Structure

  /** JSON of a job message. */
  datatype Codec = Codec(encode: JobMessage -> string, decode: string -> Option<JobMessage>) {
    ghost predicate Inverse() { forall m :: decode(encode(m)) == Some(m) }

    function Parses(): string -> bool { b => decode(b).Some? }

    function WireOf(d: Delivery): Broker.Wire { Broker.Wire(encode(d.body), d.headers) }
  }

  /** A queue of the broker holds exactly these messages of the machine; `tags` is their order. */
  ghost predicate Queued(c: Codec, wires: seq<Broker.Wire>, tags: seq<nat>, msgs: map<nat, Delivery>) {
    && Distinct(tags) && Elements(tags) == msgs.Keys && |wires| == |tags|
    && forall k | 0 <= k < |tags| :: tags[k] in msgs && wires[k] == c.WireOf(msgs[tags[k]])
  }

  lemma QueueHead(c: Codec, wires: seq<Broker.Wire>, tags: seq<nat>, msgs: map<nat, Delivery>)
    requires Queued(c, wires, tags, msgs) && wires != []
    ensures tags[0] in msgs && wires[0] == c.WireOf(msgs[tags[0]])
    ensures Queued(c, wires[1..], tags[1..], msgs - {tags[0]})
  {
    assert tags == [tags[0]] + tags[1..];
    assert forall t | t in tags[1..] :: t != tags[0];
    assert Elements(tags[1..]) == msgs.Keys - {tags[0]};
  }

  lemma QueueEnd(c: Codec, wires: seq<Broker.Wire>, tags: seq<nat>, msgs: map<nat, Delivery>, t: nat, d: Delivery)
    requires Queued(c, wires, tags, msgs) && t !in msgs
    ensures Queued(c, wires + [c.WireOf(d)], tags + [t], msgs[t := d])
  {
    assert t !in Elements(tags);
    assert Elements(tags + [t]) == Elements(tags) + {t};
  }

  /** The declared broker holds what the machine has queued and dead-lettered. */
  ghost predicate Mirrors(c: Codec, t: Broker.Topology, stored: map<string, seq<Broker.Wire>>, s: State,
                          jobs: seq<nat>, dead: seq<nat>)
  {
    && Broker.Set(t, stored)
    && Queued(c, stored[Broker.JOBS], jobs, s.ready) && Queued(c, stored[Broker.DLQ], dead, s.dlq)
  }

  /** A publish of the API, as the broker sees it. */
  lemma PublishArrives(c: Codec, t: Broker.Topology, stored: map<string, seq<Broker.Wire>>, s: State, call: nat,
                       reply: Reply, jobs: seq<nat>, dead: seq<nat>) returns (m: JobMessage)
    requires call in s.calls && s.calls[call].Publishing? && s.calls[call].pos < |s.calls[call].jobs|
    requires Mirrors(c, t, stored, s, jobs, dead) && Structure.TagsOk(s) && reply.Effective()
    ensures m.job == s.calls[call].jobs[s.calls[call].pos]
    ensures var next := Broker.Deposited(t, stored, Broker.Route(Broker.EXCHANGE, Broker.JOB_KEY),
                                         Broker.Wire(c.encode(m), Retry.NoHeaders));
      Mirrors(c, t, next, DoPublish(s, call, reply), jobs + [s.nextTag], dead)
  {
    hide Queued, Broker.Deposited, Broker.Ready, Elements;
    var k := s.calls[call];
    m := MessageFor(s.w.db, k.jobs[k.pos], k.task);
    var d := Delivery(s.nextTag, m, Retry.NoHeaders);
    Broker.ArrivalKeepsBodies(t, stored, c.WireOf(d), "");
    QueueEnd(c, stored[Broker.JOBS], jobs, s.ready, s.nextTag, d);
  }

  // ---------- settling ----------

  /** The setup allows this reply to a republish, if there is one. */
  predicate Permits(su: Setup, h: Retry.Headers, out: Broker.Outcome) {
    out.err && !Retry.Exhausted(h) ==>
      (out.republish.Refused? ==> su.refusals) && (out.republish.Lost? ==> su.losses)
  }

  /** What settling consumer `i`'s delivery makes of the machine. */
  ghost predicate Settled(s: State, s': State, i: nat, reply: Reply)
    requires i < |s.cons| && s.cons[i].Busy? && s.cons[i].pc.Returned?
  {
    var k := s.cons[i];
    var out := Broker.Outcome(k.pc.err, reply);
    && OnlyConsumer(s, s', i) && s'.cons[i] == Idle && s'.w == s.w
    && s'.ready == (if Broker.Repeats(k.d.headers, out)
                    then s.ready[s.nextTag := k.d.(headers := Retry.Next(k.d.headers))] else s.ready)
    && s'.dlq == (if Broker.Dies(k.d.headers, out) then s.dlq[k.tag := k.d] else s.dlq)
    && s'.h.acked == (if out.err then s.h.acked else s.h.acked + {k.d.id})
  }

  /** After the handler has returned: an ack, a dead letter, or a republish with an ack or a dead letter. */
  lemma SettleIsARun(su: Setup, run: seq<Action>, i: nat, reply: Reply) returns (run': seq<Action>)
    requires Legal(su, run) && i < |After(su, run).cons| && After(su, run).cons[i].Busy?
    requires var k := After(su, run).cons[i];
      k.pc.Returned? && Permits(su, k.d.headers, Broker.Outcome(k.pc.err, reply))
    ensures run <= run' && Legal(su, run') && Settled(After(su, run), After(su, run'), i, reply)
  {
    hide After, Legal, Retry.Exhausted, Retry.Next, CanCall, DoCall, DoWork, DoDeliver;
    var k := After(su, run).cons[i];
    if !k.pc.err {
      run' := Act(su, run, Settle(i, Ack));
    } else if Retry.Exhausted(k.d.headers) {
      run' := Act(su, run, Settle(i, DeadLetter));
    } else {
      run' := RetryIsARun(su, run, i, reply);
    }
  }

  lemma RetryIsARun(su: Setup, run: seq<Action>, i: nat, reply: Reply) returns (run': seq<Action>)
    requires Legal(su, run) && i < |After(su, run).cons|
    requires Failed(After(su, run).cons[i]) && !Retry.Exhausted(After(su, run).cons[i].d.headers)
    requires (reply.Refused? ==> su.refusals) && (reply.Lost? ==> su.losses)
    ensures run <= run' && Legal(su, run') && Settled(After(su, run), After(su, run'), i, reply)
  {
    hide After, Legal, Retry.Exhausted, Retry.Next, CanCall, DoCall, DoWork, DoDeliver;
    run' := Act(su, run, Settle(i, Republish(reply)));
    run' := Act(su, run', Settle(i, if reply.Confirmed? then AckOld else DeadLetter));
  }

  // ---------- one round of the loop ----------

  /** The handler's whole run on a message. */
  function Handled(su: Setup, w: World, job: nat, f: Runner.Fate): (World, bool) {
    var (w', pc) := Runner.RunToEnd(w, job, LoadJob, f, su.valid);
    (w', pc.err)
  }

  /** Consumer `i` is waiting. */
  predicate Waits(s: State, i: nat) { i < |s.cons| && s.cons[i].Idle? && i !in s.gone }

  /** The delivery is fetched and handled. */
  lemma HandledIsARun(su: Setup, run: seq<Action>, i: nat, tag: nat, f: Runner.Fate) returns (run': seq<Action>)
    requires Legal(su, run) && Waits(After(su, run), i) && tag in After(su, run).ready
    requires Runner.Permitted(su, After(su, run).w, After(su, run).ready[tag].body.job, LoadJob, f)
    ensures run <= run' && Legal(su, run')
    ensures var s, s' := After(su, run), After(su, run');
      var (w, err) := Handled(su, s.w, s.ready[tag].body.job, f);
      && s'.w == w && OnlyConsumer(s, s', i) && s'.cons[i].Busy? && s'.cons[i].pc.Returned? && s'.cons[i].pc.err == err
      && s'.cons[i].tag == tag && s'.cons[i].d == s.ready[tag]
      && s'.ready == s.ready - {tag} && s'.dlq == s.dlq && s'.nextTag == s.nextTag && s'.h.acked == s.h.acked
  {
    hide After, Legal, Runner.RunToEnd, Runner.Permitted, CanCall, DoCall, DoWork, DoSettle;
    run' := Act(su, run, Deliver(i, tag));
    run' := Runner.HandleIsARun(su, run', i, f);
  }

  /** One round: the broker's turn on the head of the job queue, with the handler's own return value, is what
      fetching, handling and settling that message makes of the machine. */
  lemma RoundIsARun(c: Codec, su: Setup, run: seq<Action>, i: nat, t: Broker.Topology,
                    stored: map<string, seq<Broker.Wire>>, f: Runner.Fate, reply: Reply, jobs: seq<nat>, dead: seq<nat>)
    returns (run': seq<Action>, jobs': seq<nat>, dead': seq<nat>)
    requires c.Inverse() && Legal(su, run) && Waits(After(su, run), i)
    requires Mirrors(c, t, stored, After(su, run), jobs, dead) && stored[Broker.JOBS] != []
    requires var s := After(su, run);
      jobs != [] && jobs[0] in s.ready && Runner.Permitted(su, s.w, s.ready[jobs[0]].body.job, LoadJob, f)
      && Permits(su, s.ready[jobs[0]].headers,
                 Broker.Outcome(Handled(su, s.w, s.ready[jobs[0]].body.job, f).1, reply))
    ensures run <= run' && Legal(su, run')
    ensures var s, s' := After(su, run), After(su, run');
      var d := s.ready[jobs[0]];
      var (w, err) := Handled(su, s.w, d.body.job, f);
      var (next, done) := Broker.Turn(t, stored, c.Parses(), Broker.Outcome(err, reply));
      && s'.w == w && Mirrors(c, t, next, s', jobs', dead') && OnlyConsumer(s, s', i) && s'.cons == s.cons
      && s'.h.acked == (if done then s.h.acked + {d.id} else s.h.acked)
  {
    hide After, Legal, Runner.RunToEnd, Runner.Permitted, Queued, Broker.Turn, Broker.Ready, Elements;
    hide Retry.Exhausted, Retry.Next, Structure.References, Structure.RowsOk, Structure.ReadsOk;
    var s := After(su, run);
    var d := s.ready[jobs[0]];
    Structure.ReachableStructured(su, run);
    QueueHead(c, stored[Broker.JOBS], jobs, s.ready);
    run' := HandledIsARun(su, run, i, jobs[0], f);
    var err := After(su, run').cons[i].pc.err;
    run' := SettleIsARun(su, run', i, reply);
    assert c.decode(c.encode(d.body)).Some? && c.Parses()(stored[Broker.JOBS][0].body);
    Broker.OneRound(t, stored, c.Parses(), Broker.Outcome(err, reply));
    assert stored[Broker.JOBS][1..] + [] == stored[Broker.JOBS][1..] && stored[Broker.DLQ] + [] == stored[Broker.DLQ];
    assert After(su, run').cons == s.cons;
    jobs', dead' := jobs[1..], dead;
    if Broker.Repeats(d.headers, Broker.Outcome(err, reply)) {
      QueueEnd(c, stored[Broker.JOBS][1..], jobs[1..], s.ready - {jobs[0]}, s.nextTag,
               d.(headers := Retry.Next(d.headers)));
      jobs' := jobs[1..] + [s.nextTag];
    }
    if Broker.Dies(d.headers, Broker.Outcome(err, reply)) {
      QueueEnd(c, stored[Broker.DLQ], dead, s.dlq, jobs[0], d);
      dead' := dead + [jobs[0]];
    }
  }

  // ---------- the whole loop ----------

  /** How the calls of one round turn out, its republish included should there be one. */
  datatype Round = Round(f: Runner.Fate, republish: Reply)

  predicate Stops(c: Codec, stored: map<string, seq<Broker.Wire>>, rounds: seq<Round>) {
    rounds == [] || Broker.JOBS !in stored || stored[Broker.JOBS] == []
    || c.decode(stored[Broker.JOBS][0].body).None?
  }

  /** Rounds one after another while there are messages: the world they leave, and what the consumer's loop
      sees of them, its handler being Handle. */
  function WorkedOff(su: Setup, c: Codec, t: Broker.Topology, stored: map<string, seq<Broker.Wire>>, w: World,
                     rounds: seq<Round>): (World, seq<Broker.Signal>)
    decreases |rounds|
  {
    if Stops(c, stored, rounds) then (w, [])
    else
      var (w', err) := Handled(su, w, c.decode(stored[Broker.JOBS][0].body).value.job, rounds[0].f);
      var out := Broker.Outcome(err, rounds[0].republish);
      var (last, signals) := WorkedOff(su, c, t, Broker.Turn(t, stored, c.Parses(), out).0, w', rounds[1..]);
      (last, [Broker.Delivered(out)] + signals)
  }

  /** The setup allows every reply met in these rounds. */
  ghost predicate AllPermitted(su: Setup, c: Codec, t: Broker.Topology, stored: map<string, seq<Broker.Wire>>, w: World,
                               rounds: seq<Round>)
    decreases |rounds|
  {
    !Stops(c, stored, rounds) ==>
      var job := c.decode(stored[Broker.JOBS][0].body).value.job;
      var (w', err) := Handled(su, w, job, rounds[0].f);
      var out := Broker.Outcome(err, rounds[0].republish);
      && Runner.Permitted(su, w, job, LoadJob, rounds[0].f) && Permits(su, stored[Broker.JOBS][0].headers, out)
      && AllPermitted(su, c, t, Broker.Turn(t, stored, c.Parses(), out).0, w', rounds[1..])
  }

  /** What the worker does, Consume over the broker with Handle over the store and the nodes, is a run of the
      machine in every setup that allows the replies it met, so everything proved of reachable states holds of
      what it leaves in database, nodes and queues. */
  lemma {:induction false} WorkerIsARun(c: Codec, su: Setup, run: seq<Action>, i: nat, t: Broker.Topology,
                                        stored: map<string, seq<Broker.Wire>>, rounds: seq<Round>,
                                        jobs: seq<nat>, dead: seq<nat>)
    returns (run': seq<Action>, jobs': seq<nat>, dead': seq<nat>)
    requires c.Inverse() && Legal(su, run) && Waits(After(su, run), i)
    requires Mirrors(c, t, stored, After(su, run), jobs, dead)
    requires AllPermitted(su, c, t, stored, After(su, run).w, rounds)
    ensures run <= run' && Legal(su, run')
    ensures var s, s' := After(su, run), After(su, run');
      var (w, signals) := WorkedOff(su, c, t, stored, s.w, rounds);
      && s'.w == w && Mirrors(c, t, Broker.Served(t, stored, c.Parses(), signals).0, s', jobs', dead')
      && OnlyConsumer(s, s', i) && s'.cons == s.cons
    decreases |rounds|
  {
    hide After, Legal, Handled, Runner.Permitted, Queued, Permits, Broker.Turn, Broker.Ready;
    run', jobs', dead' := run, jobs, dead;
    var s := After(su, run);
    if !Stops(c, stored, rounds) {
      HeadMessage(c, t, stored, s, jobs, dead);
      var (w, err) := Handled(su, s.w, s.ready[jobs[0]].body.job, rounds[0].f);
      var out := Broker.Outcome(err, rounds[0].republish);
      var next := Broker.Turn(t, stored, c.Parses(), out).0;
      run', jobs', dead' := RoundIsARun(c, su, run, i, t, stored, rounds[0].f, rounds[0].republish, jobs, dead);
      FirstSignal(t, stored, c.Parses(), out, WorkedOff(su, c, t, next, w, rounds[1..]).1);
      run', jobs', dead' := WorkerIsARun(c, su, run', i, t, next, rounds[1..], jobs', dead');
    }
  }

  lemma HeadMessage(c: Codec, t: Broker.Topology, stored: map<string, seq<Broker.Wire>>, s: State,
                    jobs: seq<nat>, dead: seq<nat>)
    requires c.Inverse() && Mirrors(c, t, stored, s, jobs, dead) && stored[Broker.JOBS] != []
    ensures jobs != [] && jobs[0] in s.ready
    ensures c.decode(stored[Broker.JOBS][0].body) == Some(s.ready[jobs[0]].body)
    ensures stored[Broker.JOBS][0].headers == s.ready[jobs[0]].headers
  {
    hide Broker.Ready;
    QueueHead(c, stored[Broker.JOBS], jobs, s.ready);
  }

  lemma FirstSignal(t: Broker.Topology, stored: map<string, seq<Broker.Wire>>, parses: string -> bool,
                    out: Broker.Outcome, signals: seq<Broker.Signal>)
    requires Broker.JOBS in stored && stored[Broker.JOBS] != []
    ensures Broker.Served(t, stored, parses, [Broker.Delivered(out)] + signals).0
            == Broker.Served(t, Broker.Turn(t, stored, parses, out).0, parses, signals).0
  {
    hide Broker.Turn;
    assert ([Broker.Delivered(out)] + signals)[1..] == signals;
  }
}
