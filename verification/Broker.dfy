/** RabbitMQ as the queue package sets it up and uses it: the declared topology, Publish, and the consumer's
    loop, which acks, republishes or dead-letters one delivery after another. */
module Broker {
  import opened Types
  import Retry

  const EXCHANGE := "otel.deploy"
  const JOBS := "deploy.jobs"
  const DLQ := "deploy.jobs.dlq"
  const JOB_KEY := "job"
  const DLQ_KEY := "dlq"

  datatype Wire = Wire(body: string, headers: Retry.Headers)
  datatype Route = Route(exchange: string, key: string)
  datatype Binding = Binding(queue: string, route: Route)

  /** Direct exchanges; queues with their dead-letter route, if any; bindings. */
  datatype Topology = Topology(exchanges: set<string>, queues: map<string, Option<Route>>, bindings: set<Binding>)

  /** The queues a direct exchange puts a message into: those bound with exactly its routing key. */
  function Targets(t: Topology, r: Route): set<string> {
    set b | b in t.bindings && b.route == r :: b.queue
  }

  /** Declaring a queue that exists with other arguments is an error. */
  predicate Declarable(t: Topology, queue: string, letters: Option<Route>) {
    queue in t.queues ==> t.queues[queue] == letters
  }

  /** Declare's five operations on the broker; those numbered below `steps` are not refused by the network. */
  function Declared(t: Topology, steps: nat): (Topology, bool) {
    if steps <= 0 then (t, false)
    else
      var t1 := t.(exchanges := t.exchanges + {EXCHANGE});
      if steps <= 1 || !Declarable(t1, DLQ, None) then (t1, false)
      else
        var t2 := t1.(queues := t1.queues[DLQ := None]);
        var letters := Some(Route(EXCHANGE, DLQ_KEY));
        if steps <= 2 || !Declarable(t2, JOBS, letters) then (t2, false)
        else
          var t3 := t2.(queues := t2.queues[JOBS := letters]);
          if steps <= 3 then (t3, false)
          else
            var t4 := t3.(bindings := t3.bindings + {Binding(JOBS, Route(EXCHANGE, JOB_KEY))});
            if steps <= 4 then (t4, false)
            else (t4.(bindings := t4.bindings + {Binding(DLQ, Route(EXCHANGE, DLQ_KEY))}), true)
  }

  /** Where a message goes that is put on a route: to the end of every target queue, or nowhere. */
  function Deposited(t: Topology, stored: map<string, seq<Wire>>, r: Route, m: Wire): map<string, seq<Wire>> {
    map q | q in stored :: if q in Targets(t, r) then stored[q] + [m] else stored[q]
  }

  /** A rejected delivery of queue `q` follows the queue's dead-letter route, or is dropped. */
  function Rejected(t: Topology, stored: map<string, seq<Wire>>, q: string, m: Wire): map<string, seq<Wire>> {
    if q in t.queues && t.queues[q].Some? then Deposited(t, stored, t.queues[q].value, m) else stored
  }

  /** How one delivery fares: does the handler return an error, and how does a republish end? */
  datatype Outcome = Outcome(err: bool, republish: Reply)

  /** One round of the consumer's loop, for the delivery at the head of the job queue; `parses` is JSON
      decoding. Also whether the delivery was acked after its handler returned nil. */
  function Turn(t: Topology, stored: map<string, seq<Wire>>, parses: string -> bool, out: Outcome)
    : (map<string, seq<Wire>>, bool)
    requires JOBS in stored && stored[JOBS] != []
  {
    var d := stored[JOBS][0];
    var rest := stored[JOBS := stored[JOBS][1..]];
    if !parses(d.body) then (Rejected(t, rest, JOBS, d), false)
    else if !out.err then (rest, true)
    else if Retry.Exhausted(d.headers) then (Rejected(t, rest, JOBS, d), false)
    else
      var again := if out.republish.Effective()
        then Deposited(t, rest, Route(EXCHANGE, JOB_KEY), d.(headers := Retry.Next(d.headers))) else rest;
      (if out.republish.Confirmed? then again else Rejected(t, again, JOBS, d), false)
  }

  /** What happens at the consumer, one after another: a delivery, if there is one, and how it fares; a message
      published by somebody else; the context cancelled; the delivery channel closed. */
  datatype Signal = Delivered(out: Outcome) | Arrived(m: Wire) | Cancelled | Closed

  /** How Consume stands: it never got its channel, is still in its loop, or has returned an error. */
  datatype Exit = NotOpened | Running | ContextDone | ChannelClosed

  /** The loop over these signals: the queues, the bodies acked for good, and how it stands. */
  function Served(t: Topology, stored: map<string, seq<Wire>>, parses: string -> bool, signals: seq<Signal>)
    : (map<string, seq<Wire>>, seq<string>, Exit)
    decreases |signals|
  {
    if signals == [] then (stored, [], Running)
    else
      match signals[0]
      case Cancelled => (stored, [], ContextDone)
      case Closed => (stored, [], ChannelClosed)
      case Arrived(m) => Served(t, Deposited(t, stored, Route(EXCHANGE, JOB_KEY), m), parses, signals[1..])
      case Delivered(out) =>
        if JOBS !in stored || stored[JOBS] == [] then Served(t, stored, parses, signals[1..])
        else
          var (next, done) := Turn(t, stored, parses, out);
          var (last, more, exit) := Served(t, next, parses, signals[1..]);
          (last, (if done then [stored[JOBS][0].body] else []) + more, exit)
  }

  class Broker {
    var topology: Topology
    var stored: map<string, seq<Wire>>

    constructor ()
      ensures topology == Topology({}, map[], {}) && stored == map[]
    {
      topology, stored := Topology({}, map[], {}), map[];
    }

    method ExchangeDeclare(exchange: string)
      modifies this`topology
      ensures topology == old(topology).(exchanges := old(topology).exchanges + {exchange})
    {
      topology := topology.(exchanges := topology.exchanges + {exchange});
    }

    method QueueDeclare(queue: string, letters: Option<Route>) returns (ok: bool)
      modifies this
      ensures ok == Declarable(old(topology), queue, letters)
      ensures topology == if ok then old(topology).(queues := old(topology).queues[queue := letters]) else old(topology)
      ensures stored == if ok && queue !in old(stored) then old(stored)[queue := []] else old(stored)
    {
      ok := Declarable(topology, queue, letters);
      if ok {
        topology := topology.(queues := topology.queues[queue := letters]);
        if queue !in stored { stored := stored[queue := []]; }
      }
    }

    method QueueBind(queue: string, r: Route)
      modifies this`topology
      ensures topology == old(topology).(bindings := old(topology).bindings + {Binding(queue, r)})
    {
      topology := topology.(bindings := topology.bindings + {Binding(queue, r)});
    }

    method Declare(steps: nat) returns (ok: bool)
      modifies this
      ensures (topology, ok) == Declared(old(topology), steps)
      ensures ok ==> stored.Keys == old(stored).Keys + {JOBS, DLQ}
      ensures forall q | q in old(stored) :: q in stored && stored[q] == old(stored)[q]
      ensures forall q | q in stored && q !in old(stored) :: stored[q] == []
    {
      if steps <= 0 { return false; }
      ExchangeDeclare(EXCHANGE);
      if steps <= 1 { return false; }
      ok := QueueDeclare(DLQ, None);
      if !ok || steps <= 2 { return false; }
      ok := QueueDeclare(JOBS, Some(Route(EXCHANGE, DLQ_KEY)));
      if !ok || steps <= 3 { return false; }
      QueueBind(JOBS, Route(EXCHANGE, JOB_KEY));
      if steps <= 4 { return false; }
      QueueBind(DLQ, Route(EXCHANGE, DLQ_KEY));
    }

    method Deposit(r: Route, m: Wire)
      modifies this`stored
      ensures stored == Deposited(topology, old(stored), r, m)
    {
      var open := Targets(topology, r);
      var before := stored;
      while open != {}
        invariant stored == Filled(before, Targets(topology, r) - open, m) && open <= Targets(topology, r)
        decreases |open|
      {
        var q :| q in open;
        if q in stored { stored := stored[q := stored[q] + [m]]; }
        open := open - {q};
      }
    }

    /** Publish succeeds for its caller even when no queue is bound; then the message is gone. */
    method Publish(body: string, reply: Reply) returns (ok: bool)
      modifies this`stored
      ensures ok == reply.Confirmed?
      ensures stored == if reply.Effective()
                        then Deposited(topology, old(stored), Route(EXCHANGE, JOB_KEY), Wire(body, Retry.NoHeaders))
                        else old(stored)
    {
      if reply.Effective() { Deposit(Route(EXCHANGE, JOB_KEY), Wire(body, Retry.NoHeaders)); }
      ok := reply.Confirmed?;
    }

    /** Nack without requeue. */
    method Nack(d: Wire)
      modifies this`stored
      ensures stored == Rejected(topology, old(stored), JOBS, d)
    {
      if JOBS in topology.queues && topology.queues[JOBS].Some? {
        Deposit(topology.queues[JOBS].value, d);
      }
    }

    /** The consumer: `opens` tells whether channel, prefetch and subscription could be set up. */
    method Consume(parses: string -> bool, opens: bool, signals: seq<Signal>) returns (done: seq<string>, exit: Exit)
      modifies this`stored
      ensures if opens
              then var r := Served(topology, old(stored), parses, signals); stored == r.0 && done == r.1 && exit == r.2
              else stored == old(stored) && done == [] && exit == NotOpened
    {
      hide Turn, Rejected, Deposited, Served;
      done := [];
      if !opens { return [], NotOpened; }
      ghost var all := Served(topology, stored, parses, signals);
      assert [] + all.1 == all.1 && signals[0..] == signals;
      for k := 0 to |signals|
        invariant all.0 == Served(topology, stored, parses, signals[k..]).0
        invariant all.1 == done + Served(topology, stored, parses, signals[k..]).1
        invariant all.2 == Served(topology, stored, parses, signals[k..]).2
      {
        NextSignal(topology, stored, parses, signals, k);
        assert done + [] == done;
        match signals[k] {
          case Cancelled => return done, ContextDone;
          case Closed => return done, ChannelClosed;
          case Arrived(m) => Deposit(Route(EXCHANGE, JOB_KEY), m);
          case Delivered(out) =>
            if JOBS in stored && stored[JOBS] != [] {
              var d := stored[JOBS][0];
              var nil := Settle(parses, out);
              if nil { done := done + [d.body]; }
            }
        }
      }
      assert signals[|signals|..] == [];
      NoSignal(topology, stored, parses);
      assert done + [] == done;
      exit := Running;
    }

    /** The body of the loop. */
    method Settle(parses: string -> bool, out: Outcome) returns (nil: bool)
      requires JOBS in stored && stored[JOBS] != []
      modifies this`stored
      ensures (stored, nil) == Turn(topology, old(stored), parses, out)
    {
      hide Rejected, Deposited;
      var d := stored[JOBS][0];
      stored := stored[JOBS := stored[JOBS][1..]];
      if !parses(d.body) {
        Nack(d);
        return false;
      }
      if !out.err { return true; }
      var retry: int := Retry.Count(d.headers);
      if Retry.WrapTo64(retry + 1) >= Retry.MAX_ATTEMPTS {
        Nack(d);
        return false;
      }
      var headers := CopyOf(if d.headers.Table? then d.headers.entries else map[]);
      headers := headers[Retry.HEADER := Retry.Int32(Retry.TruncateTo32(Retry.WrapTo64(retry + 1)))];
      if out.republish.Effective() { Deposit(Route(EXCHANGE, JOB_KEY), Wire(d.body, Retry.Table(headers))); }
      if !out.republish.Confirmed? { Nack(d); }
      return false;
    }
  }

  lemma NextSignal(t: Topology, stored: map<string, seq<Wire>>, parses: string -> bool, signals: seq<Signal>, k: nat)
    requires k < |signals|
    ensures var r, g := Served(t, stored, parses, signals[k..]), signals[k];
      if g.Cancelled? then r == (stored, [], ContextDone)
      else if g.Closed? then r == (stored, [], ChannelClosed)
      else if g.Arrived? then
        r == Served(t, Deposited(t, stored, Route(EXCHANGE, JOB_KEY), g.m), parses, signals[k + 1..])
      else if JOBS !in stored || stored[JOBS] == [] then r == Served(t, stored, parses, signals[k + 1..])
      else
        var (next, done) := Turn(t, stored, parses, g.out);
        var more := Served(t, next, parses, signals[k + 1..]);
        r == (more.0, (if done then [stored[JOBS][0].body] else []) + more.1, more.2)
  {
    hide Turn, Deposited;
    assert signals[k..][1..] == signals[k + 1..] && signals[k..][0] == signals[k];
  }

  lemma NoSignal(t: Topology, stored: map<string, seq<Wire>>, parses: string -> bool)
    ensures Served(t, stored, parses, []) == (stored, [], Running)
  {
  }

  function Filled(stored: map<string, seq<Wire>>, queues: set<string>, m: Wire): map<string, seq<Wire>> {
    map q | q in stored :: if q in queues then stored[q] + [m] else stored[q]
  }

  /** Copy a header table entry by entry. */
  method CopyOf(entries: map<string, Retry.Value>) returns (copy: map<string, Retry.Value>)
    ensures copy == entries
  {
    copy := map[];
    var rest := entries.Keys;
    while rest != {}
      invariant rest <= entries.Keys && copy.Keys == entries.Keys - rest
      invariant forall k | k in copy :: copy[k] == entries[k]
      decreases |rest|
    {
      var k :| k in rest;
      copy := copy[k := entries[k]];
      rest := rest - {k};
    }
  }

  // ---------- what the topology gives ----------

  /** Nobody else has bound a queue to the exchange: what is bound is what an earlier Declare, complete or
      not, has left. */
  predicate Own(t: Topology) {
    forall b | b in t.bindings && b.route.exchange == EXCHANGE ::
      b == Binding(JOBS, Route(EXCHANGE, JOB_KEY)) || b == Binding(DLQ, Route(EXCHANGE, DLQ_KEY))
  }

  ghost predicate Ready(t: Topology) {
    && t.queues.Keys >= {JOBS, DLQ} && t.queues[JOBS] == Some(Route(EXCHANGE, DLQ_KEY)) && t.queues[DLQ] == None
    && Targets(t, Route(EXCHANGE, JOB_KEY)) == {JOBS} && Targets(t, Route(EXCHANGE, DLQ_KEY)) == {DLQ}
    && forall key | key != JOB_KEY && key != DLQ_KEY :: Targets(t, Route(EXCHANGE, key)) == {}
  }

  lemma DeclaredAgain(t: Topology, steps: nat)
    requires Declared(t, steps).1
    ensures Declared(Declared(t, steps).0, steps) == Declared(t, steps)
  {
    var t' := Declared(t, steps).0;
    assert t'.exchanges + {EXCHANGE} == t'.exchanges;
    assert t'.queues[DLQ := None] == t'.queues;
    assert t'.queues[JOBS := Some(Route(EXCHANGE, DLQ_KEY))] == t'.queues;
    assert t'.bindings + {Binding(JOBS, Route(EXCHANGE, JOB_KEY))} == t'.bindings;
    assert t'.bindings + {Binding(DLQ, Route(EXCHANGE, DLQ_KEY))} == t'.bindings;
  }

  /** After a Declare that succeeds, jobs go to the job queue alone, dead letters to the dead-letter queue
      alone, and no other key leads anywhere; declaring again changes nothing. Earlier attempts that failed
      midway do no harm. */
  lemma DeclaredRoutes(t: Topology, steps: nat)
    requires Own(t) && Declared(t, steps).1
    ensures Ready(Declared(t, steps).0)
    ensures Declared(Declared(t, steps).0, steps) == Declared(t, steps)
    ensures Own(Declared(t, steps).0)
  {
    DeclaredAgain(t, steps);
    var t' := Declared(t, steps).0;
    forall r: Route | r.exchange == EXCHANGE
      ensures Targets(t', r) == if r.key == JOB_KEY then {JOBS} else if r.key == DLQ_KEY then {DLQ} else {}
    {
      assert Binding(JOBS, Route(EXCHANGE, JOB_KEY)) in t'.bindings;
      assert Binding(DLQ, Route(EXCHANGE, DLQ_KEY)) in t'.bindings;
    }
  }

  const BARE := Topology({}, map[], {})

  /** The broker after attempts to declare, each cut off after so many operations. */
  function AfterAttempts(tries: seq<nat>): Topology {
    if tries == [] then BARE else Declared(AfterAttempts(tries[..|tries| - 1]), tries[|tries| - 1]).0
  }

  lemma AttemptStaysOwn(t: Topology, steps: nat)
    requires Own(t)
    ensures Own(Declared(t, steps).0)
  {
  }

  /** Whatever attempts came before, at an empty broker: the job queue, if declared, has its dead-letter route
      and the dead-letter queue has none, so a further attempt fails only where it is cut off. */
  lemma {:induction false} AttemptsDoNoHarm(tries: seq<nat>, steps: nat)
    ensures var t := AfterAttempts(tries);
      Own(t) && Declarable(t, DLQ, None) && Declarable(t, JOBS, Some(Route(EXCHANGE, DLQ_KEY)))
    ensures Declared(AfterAttempts(tries), steps).1 <==> steps >= 5
  {
    hide Own;
    if tries == [] {
      BareIsOwn();
    } else {
      var before, last := tries[..|tries| - 1], tries[|tries| - 1];
      AttemptsDoNoHarm(before, last);
      AttemptStaysOwn(AfterAttempts(before), last);
    }
  }

  lemma BareIsOwn()
    ensures Own(BARE)
  {
  }

  /** From an empty broker, after any attempts cut off anywhere: one that gets through all five operations
      leaves exactly the declared routes. */
  lemma RoutesInTheEnd(tries: seq<nat>, steps: nat)
    requires steps >= 5
    ensures Declared(AfterAttempts(tries), steps).1 && Ready(Declared(AfterAttempts(tries), steps).0)
  {
    hide Declared, AfterAttempts, Own, Ready;
    AttemptsDoNoHarm(tries, steps);
    DeclaredRoutes(AfterAttempts(tries), steps);
  }

  /** Publish reports success and the message is nowhere: exactly when no existing queue is bound to its
      route, as before the first Declare. */
  lemma DroppedExactly(t: Topology, stored: map<string, seq<Wire>>, r: Route, m: Wire)
    ensures Deposited(t, stored, r, m) == stored <==> Targets(t, r) !! stored.Keys
  {
    if q :| q in Targets(t, r) && q in stored {
      assert |Deposited(t, stored, r, m)[q]| == |stored[q]| + 1;
    } else {
      assert forall q | q in stored :: q !in Targets(t, r);
    }
  }

  // ---------- what the loop does to messages ----------

  /** The declared broker with both its queues. */
  ghost predicate Set(t: Topology, stored: map<string, seq<Wire>>) {
    Ready(t) && JOBS in stored && DLQ in stored
  }

  /** A handled message with these headers joins the dead letters; it is queued again. Both can happen. */
  predicate Dies(h: Retry.Headers, out: Outcome) {
    out.err && (Retry.Exhausted(h) || !out.republish.Confirmed?)
  }

  predicate Repeats(h: Retry.Headers, out: Outcome) {
    out.err && !Retry.Exhausted(h) && out.republish.Effective()
  }

  predicate Lands(parses: string -> bool, d: Wire, out: Outcome) { !parses(d.body) || Dies(d.headers, out) }

  predicate Returns(parses: string -> bool, d: Wire, out: Outcome) { parses(d.body) && Repeats(d.headers, out) }

  /** One round: the head leaves the job queue; it is acked for good, comes back at the end with the next
      retry count and the same body, or joins the dead letters. */
  lemma OneRound(t: Topology, stored: map<string, seq<Wire>>, parses: string -> bool, out: Outcome)
    requires Set(t, stored) && stored[JOBS] != []
    ensures var d := stored[JOBS][0];
      var (next, done) := Turn(t, stored, parses, out);
      && Set(t, next) && (done <==> parses(d.body) && !out.err)
      && next[JOBS] == stored[JOBS][1..] +
           (if Returns(parses, d, out) then [d.(headers := Retry.Next(d.headers))] else [])
      && next[DLQ] == stored[DLQ] + (if Lands(parses, d, out) then [d] else [])
  {
    hide Retry.Exhausted, Retry.Next;
    assert Targets(t, Route(EXCHANGE, JOB_KEY)) == {JOBS} && Targets(t, Route(EXCHANGE, DLQ_KEY)) == {DLQ};
    assert t.queues[JOBS] == Some(Route(EXCHANGE, DLQ_KEY));
    hide Ready;
  }

  /** How many of these messages carry body `b`. */
  function Copies(ms: seq<Wire>, b: string): nat {
    if ms == [] then 0 else (if ms[0].body == b then 1 else 0) + Copies(ms[1..], b)
  }

  lemma {:induction false} CopiesAppend(ms: seq<Wire>, m: Wire, b: string)
    ensures Copies(ms + [m], b) == Copies(ms, b) + (if m.body == b then 1 else 0)
  {
    if ms == [] {
      assert [] + [m] == [m];
    } else {
      CopiesAppend(ms[1..], m, b);
      assert (ms + [m])[1..] == ms[1..] + [m];
    }
  }

  /** Copies of body `b` in the two queues. */
  ghost function Held(stored: map<string, seq<Wire>>, b: string): nat
    requires JOBS in stored && DLQ in stored
  {
    Copies(stored[JOBS], b) + Copies(stored[DLQ], b)
  }

  lemma RoundKeepsBodies(t: Topology, stored: map<string, seq<Wire>>, parses: string -> bool, out: Outcome, b: string)
    requires Set(t, stored) && stored[JOBS] != []
    ensures var d := stored[JOBS][0];
      var (next, done) := Turn(t, stored, parses, out);
      && Set(t, next) && stored[DLQ] <= next[DLQ]
      && Held(next, b) + (if done && d.body == b then 1 else 0) ==
         Held(stored, b) + (if Returns(parses, d, out) && out.republish.Lost? && d.body == b then 1 else 0)
  {
    hide Turn, Retry.Exhausted, Retry.Next, Ready;
    OneRound(t, stored, parses, out);
    var d := stored[JOBS][0];
    CopiesAppend(stored[JOBS][1..], d.(headers := Retry.Next(d.headers)), b);
    CopiesAppend(stored[DLQ], d, b);
    assert stored[DLQ] + [] == stored[DLQ] && stored[JOBS][1..] + [] == stored[JOBS][1..];
  }

  function Count(bs: seq<string>, b: string): nat { multiset(bs)[b] }

  /** Messages with body `b` that others publish before the loop ends. */
  function Came(signals: seq<Signal>, b: string): nat {
    if signals == [] || signals[0].Cancelled? || signals[0].Closed? then 0
    else (if signals[0].Arrived? && signals[0].m.body == b then 1 else 0) + Came(signals[1..], b)
  }

  lemma ArrivalKeepsBodies(t: Topology, stored: map<string, seq<Wire>>, m: Wire, b: string)
    requires Set(t, stored)
    ensures var next := Deposited(t, stored, Route(EXCHANGE, JOB_KEY), m);
      && Set(t, next) && next[JOBS] == stored[JOBS] + [m] && next[DLQ] == stored[DLQ]
      && Held(next, b) == Held(stored, b) + (if m.body == b then 1 else 0)
  {
    assert Targets(t, Route(EXCHANGE, JOB_KEY)) == {JOBS};
    CopiesAppend(stored[JOBS], m, b);
    hide Copies, Ready;
  }

  predicate NoneLost(signals: seq<Signal>) {
    forall s | s in signals && s.Delivered? :: !s.out.republish.Lost?
  }

  /** Over any signals no message is lost: each copy of a body that was there or came is queued, dead-lettered
      or acked after a run that returned nil; without lost replies to a republish none is duplicated either.
      What is dead-lettered stays, in order, and never returns to the job queue. */
  lemma {:induction false} BodiesAreConserved(t: Topology, stored: map<string, seq<Wire>>, parses: string -> bool,
                                              signals: seq<Signal>, b: string)
    requires Set(t, stored)
    ensures var (last, done, _) := Served(t, stored, parses, signals);
      && Set(t, last) && stored[DLQ] <= last[DLQ]
      && Held(stored, b) + Came(signals, b) <= Held(last, b) + Count(done, b)
      && (NoneLost(signals) ==> Held(last, b) + Count(done, b) == Held(stored, b) + Came(signals, b))
    decreases |signals|
  {
    hide Turn, Deposited, Ready, Lands, Returns, Held;
    if signals != [] {
      var rest := signals[1..];
      assert NoneLost(signals) ==> NoneLost(rest) by { assert forall s | s in rest :: s in signals; }
      match signals[0]
      case Arrived(m) =>
        ArrivalKeepsBodies(t, stored, m, b);
        BodiesAreConserved(t, Deposited(t, stored, Route(EXCHANGE, JOB_KEY), m), parses, rest, b);
      case Delivered(out) =>
        if stored[JOBS] == [] {
          BodiesAreConserved(t, stored, parses, rest, b);
        } else {
          assert signals[0] in signals;
          RoundKeepsBodies(t, stored, parses, out, b);
          BodiesAreConserved(t, Turn(t, stored, parses, out).0, parses, rest, b);
        }
      case _ =>
    }
  }

  /** Consume returns at the first cancellation or closing of its channel, with that as its reason. */
  lemma {:induction false} ReturnsExactly(t: Topology, stored: map<string, seq<Wire>>, parses: string -> bool,
                                          signals: seq<Signal>)
    ensures var exit := Served(t, stored, parses, signals).2;
      && (exit == Running <==> forall k | 0 <= k < |signals| :: !signals[k].Cancelled? && !signals[k].Closed?)
      && (exit == ContextDone <==> exists k | 0 <= k < |signals| ::
            signals[k].Cancelled? && forall m | 0 <= m < k :: !signals[m].Cancelled? && !signals[m].Closed?)
      && exit != NotOpened
    decreases |signals|
  {
    hide Turn, Deposited;
    if signals != [] && !signals[0].Cancelled? && !signals[0].Closed? {
      var rest := signals[1..];
      assert forall k | 0 <= k < |rest| :: rest[k] == signals[k + 1];
      var next := match signals[0]
        case Arrived(m) => Deposited(t, stored, Route(EXCHANGE, JOB_KEY), m)
        case Delivered(out) =>
          (if JOBS !in stored || stored[JOBS] == [] then stored else Turn(t, stored, parses, out).0)
        case _ => stored;
      ReturnsExactly(t, next, parses, rest);
      if k :| 0 <= k < |rest| && rest[k].Cancelled?
              && forall m | 0 <= m < k :: !rest[m].Cancelled? && !rest[m].Closed? {
        assert signals[k + 1].Cancelled?;
        forall m | 0 <= m < k + 1 ensures !signals[m].Cancelled? && !signals[m].Closed? {
          if m > 0 { assert rest[m - 1] == signals[m]; }
        }
      }
      if k :| 0 <= k < |signals| && signals[k].Cancelled?
              && forall m | 0 <= m < k :: !signals[m].Cancelled? && !signals[m].Closed? {
        assert rest[k - 1].Cancelled?;
      }
    }
  }

  // ---------- one message that keeps failing, among any others ----------

  /** Rounds that deliver body `b`. */
  function Attempts(t: Topology, stored: map<string, seq<Wire>>, parses: string -> bool, signals: seq<Signal>,
                    b: string): nat
    decreases |signals|
  {
    if signals == [] then 0
    else
      match signals[0]
      case Arrived(m) => Attempts(t, Deposited(t, stored, Route(EXCHANGE, JOB_KEY), m), parses, signals[1..], b)
      case Delivered(out) =>
        if JOBS !in stored || stored[JOBS] == [] then Attempts(t, stored, parses, signals[1..], b)
        else
          (if stored[JOBS][0].body == b then 1 else 0)
          + Attempts(t, Turn(t, stored, parses, out).0, parses, signals[1..], b)
      case _ => 0
  }

  /** Every run on body `b` fails and its republish is confirmed; nobody else publishes `b`. */
  predicate KeepsFailing(t: Topology, stored: map<string, seq<Wire>>, parses: string -> bool, signals: seq<Signal>,
                         b: string)
    decreases |signals|
  {
    if signals == [] || signals[0].Cancelled? || signals[0].Closed? then true
    else if signals[0].Arrived? then
      signals[0].m.body != b
      && KeepsFailing(t, Deposited(t, stored, Route(EXCHANGE, JOB_KEY), signals[0].m), parses, signals[1..], b)
    else if JOBS !in stored || stored[JOBS] == [] then KeepsFailing(t, stored, parses, signals[1..], b)
    else
      (stored[JOBS][0].body == b ==> signals[0].out.err && signals[0].out.republish.Confirmed?)
      && KeepsFailing(t, Turn(t, stored, parses, signals[0].out).0, parses, signals[1..], b)
  }

  lemma {:induction false} Counted(ms: seq<Wire>, m: Wire)
    requires m in ms
    ensures Copies(ms, m.body) >= 1
  {
    if ms[0] != m { Counted(ms[1..], m); }
  }

  /** The queue's head, if it carries the only copy's body, is that copy. */
  lemma OnlyCopyAtHead(ms: seq<Wire>, m: Wire)
    requires ms != [] && m in ms && Copies(ms, m.body) == 1
    ensures if ms[0].body == m.body then ms[0] == m && Copies(ms[1..], m.body) == 0
            else m in ms[1..] && Copies(ms[1..], m.body) == 1
  {
    if m in ms[1..] { Counted(ms[1..], m); }
  }

  /** A round for another message leaves this one where it is. */
  lemma OtherRound(t: Topology, stored: map<string, seq<Wire>>, parses: string -> bool, out: Outcome, b: string)
    requires Set(t, stored) && stored[JOBS] != [] && stored[JOBS][0].body != b
    ensures var next := Turn(t, stored, parses, out).0;
      && Set(t, next) && stored[JOBS][1..] <= next[JOBS]
      && Copies(next[JOBS], b) == Copies(stored[JOBS], b) && Copies(next[DLQ], b) == Copies(stored[DLQ], b)
  {
    hide Turn, Retry.Exhausted, Retry.Next, Ready;
    OneRound(t, stored, parses, out);
    var d := stored[JOBS][0];
    CopiesAppend(stored[JOBS][1..], d.(headers := Retry.Next(d.headers)), b);
    CopiesAppend(stored[DLQ], d, b);
    assert stored[DLQ] + [] == stored[DLQ] && stored[JOBS][1..] + [] == stored[JOBS][1..];
  }

  /** A failed round for the message itself. */
  lemma OwnRound(t: Topology, stored: map<string, seq<Wire>>, parses: string -> bool, out: Outcome, m: Wire)
    requires Set(t, stored) && stored[JOBS] != [] && stored[JOBS][0] == m && Copies(stored[JOBS][1..], m.body) == 0
    requires parses(m.body) && out.err && out.republish.Confirmed?
    ensures var next := Turn(t, stored, parses, out).0;
      && Set(t, next)
      && if Retry.Exhausted(m.headers)
         then Copies(next[JOBS], m.body) == 0 && Copies(next[DLQ], m.body) == Copies(stored[DLQ], m.body) + 1
         else m.(headers := Retry.Next(m.headers)) in next[JOBS] && Copies(next[JOBS], m.body) == 1
              && next[DLQ] == stored[DLQ]
  {
    hide Turn, Retry.Exhausted, Retry.Next, Ready;
    OneRound(t, stored, parses, out);
    var m' := m.(headers := Retry.Next(m.headers));
    CopiesAppend(stored[JOBS][1..], m', m.body);
    CopiesAppend(stored[DLQ], m, m.body);
    assert stored[DLQ] + [] == stored[DLQ] && stored[JOBS][1..] + [] == stored[JOBS][1..];
    assert m' in stored[JOBS][1..] + [m'];
  }

  /** A body that is not queued, and that nobody publishes, is not delivered any more. */
  lemma {:induction false} GoneForGood(t: Topology, stored: map<string, seq<Wire>>, parses: string -> bool,
                                       signals: seq<Signal>, b: string)
    requires Set(t, stored) && Copies(stored[JOBS], b) == 0 && KeepsFailing(t, stored, parses, signals, b)
    ensures var last := Served(t, stored, parses, signals).0;
      && Set(t, last) && Attempts(t, stored, parses, signals, b) == 0
      && Copies(last[JOBS], b) == 0 && Copies(last[DLQ], b) == Copies(stored[DLQ], b)
    decreases |signals|
  {
    hide Turn, Deposited, Ready;
    if signals != [] {
      match signals[0]
      case Arrived(m) =>
        ArrivalKeepsBodies(t, stored, m, b);
        CopiesAppend(stored[JOBS], m, b);
        GoneForGood(t, Deposited(t, stored, Route(EXCHANGE, JOB_KEY), m), parses, signals[1..], b);
      case Delivered(out) =>
        if stored[JOBS] == [] {
          GoneForGood(t, stored, parses, signals[1..], b);
        } else {
          OtherRound(t, stored, parses, out, b);
          GoneForGood(t, Turn(t, stored, parses, out).0, parses, signals[1..], b);
        }
      case _ =>
    }
  }

  /** A message whose handler keeps failing, anywhere in the queue and whatever happens to the others: it is
      dead-lettered, with its body intact, at exactly the attempt its header table allows; until then it is
      queued with exactly the attempts left that it has not used. */
  lemma {:induction false} RepeatedFailure(t: Topology, stored: map<string, seq<Wire>>, parses: string -> bool,
                                           signals: seq<Signal>, m: Wire) returns (now: Wire)
    requires Set(t, stored) && m in stored[JOBS] && Copies(stored[JOBS], m.body) == 1 && parses(m.body)
    requires KeepsFailing(t, stored, parses, signals, m.body)
    ensures var last, n := Served(t, stored, parses, signals).0, Attempts(t, stored, parses, signals, m.body);
      && Set(t, last) && n <= Retry.FailuresUntilDead(m.headers)
      && (n == Retry.FailuresUntilDead(m.headers) ==>
            Copies(last[JOBS], m.body) == 0 && Copies(last[DLQ], m.body) == Copies(stored[DLQ], m.body) + 1)
      && (n < Retry.FailuresUntilDead(m.headers) ==>
            && now in last[JOBS] && now.body == m.body && Copies(last[JOBS], m.body) == 1
            && Retry.FailuresUntilDead(now.headers) == Retry.FailuresUntilDead(m.headers) - n
            && Copies(last[DLQ], m.body) == Copies(stored[DLQ], m.body))
    decreases |signals|, 1
  {
    hide Turn, Deposited, Ready, Retry.Exhausted, Retry.Next, Copies;
    now := m;
    if signals != [] {
      match signals[0]
      case Arrived(other) =>
        ArrivalKeepsBodies(t, stored, other, m.body);
        CopiesAppend(stored[JOBS], other, m.body);
        now := RepeatedFailure(t, Deposited(t, stored, Route(EXCHANGE, JOB_KEY), other), parses, signals[1..], m);
      case Delivered(out) =>
        now := FailedRound(t, stored, parses, signals, m);
      case _ =>
    }
  }

  lemma {:induction false} FailedRound(t: Topology, stored: map<string, seq<Wire>>, parses: string -> bool,
                                       signals: seq<Signal>, m: Wire) returns (now: Wire)
    requires Set(t, stored) && m in stored[JOBS] && Copies(stored[JOBS], m.body) == 1 && parses(m.body)
    requires KeepsFailing(t, stored, parses, signals, m.body) && signals != [] && signals[0].Delivered?
    ensures var last, n := Served(t, stored, parses, signals).0, Attempts(t, stored, parses, signals, m.body);
      && Set(t, last) && n <= Retry.FailuresUntilDead(m.headers)
      && (n == Retry.FailuresUntilDead(m.headers) ==>
            Copies(last[JOBS], m.body) == 0 && Copies(last[DLQ], m.body) == Copies(stored[DLQ], m.body) + 1)
      && (n < Retry.FailuresUntilDead(m.headers) ==>
            && now in last[JOBS] && now.body == m.body && Copies(last[JOBS], m.body) == 1
            && Retry.FailuresUntilDead(now.headers) == Retry.FailuresUntilDead(m.headers) - n
            && Copies(last[DLQ], m.body) == Copies(stored[DLQ], m.body))
    decreases |signals|, 0
  {
    hide Turn, Deposited, Ready, Retry.Exhausted, Retry.Next, Copies;
    var out := signals[0].out;
    var next := Turn(t, stored, parses, out).0;
    OnlyCopyAtHead(stored[JOBS], m);
    if stored[JOBS][0].body != m.body {
      OtherRound(t, stored, parses, out, m.body);
      now := RepeatedFailure(t, next, parses, signals[1..], m);
    } else {
      OwnRound(t, stored, parses, out, m);
      if Retry.Exhausted(m.headers) {
        now := m;
        GoneForGood(t, next, parses, signals[1..], m.body);
      } else {
        now := RepeatedFailure(t, next, parses, signals[1..], m.(headers := Retry.Next(m.headers)));
      }
    }
  }
}
