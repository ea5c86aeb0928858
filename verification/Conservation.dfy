/** Messages are not lost, and the retry header counts. */
module Conservation {
  import opened Types
  import opened Handler
  import opened Machine
  import opened Structure
  import Sql
  import Retry
  import Tokens

  /** A place that can hold a message. */
  datatype Place = Ready(tag: nat) | Held(i: nat) | Dead(tag: nat)

  function Message(s: State, p: Place): Option<Delivery> {
    match p
    case Ready(t) => if t in s.ready then Some(s.ready[t]) else None
    case Held(i) => if i < |s.cons| && !s.cons[i].Idle? then Some(s.cons[i].d) else None
    case Dead(t) => if t in s.dlq then Some(s.dlq[t]) else None
  }

  /** The message at `p` has been republished and only waits to be acknowledged: its copy counts instead. */
  predicate Superseded(s: State, p: Place) {
    p.Held? && p.i < |s.cons| && s.cons[p.i].Republished?
  }

  // ---------- how each step moves messages ----------

  lemma MessageCall(su: Setup, s: State, call: nat, step: ApiStep, p: Place)
    requires CanCall(su, s, call, step)
    ensures var s' := DoCall(su, s, call, step);
      && Superseded(s', p) == Superseded(s, p)
      && Message(s', p) ==
         if step.Publish? && step.reply.Effective() && p == Ready(s.nextTag)
         then Some(Delivery(s.nextTag, MessageFor(s.w.db, s.calls[call].jobs[s.calls[call].pos], s.calls[call].task),
                            Retry.NoHeaders))
         else Message(s, p)
  {
    hide DoInsert, DoReset, DoWriteStatus, DoReadBack, ListsFailed, ValidInput, MessageFor, Elements;
  }

  lemma MessageDeliver(s: State, i: nat, tag: nat, p: Place)
    requires i < |s.cons| && tag in s.ready
    ensures Superseded(DoDeliver(s, i, tag), p) == (p != Held(i) && Superseded(s, p))
    ensures Message(DoDeliver(s, i, tag), p) ==
            if p == Ready(tag) then None else if p == Held(i) then Some(s.ready[tag]) else Message(s, p)
  {
  }

  lemma MessageWork(su: Setup, s: State, i: nat, io: Io, p: Place)
    requires i < |s.cons| && s.cons[i].Busy? && Fits(s.cons[i].pc, io)
    ensures Superseded(DoWork(su, s, i, io), p) == Superseded(s, p)
    ensures Message(DoWork(su, s, i, io), p) == Message(s, p)
  {
    hide Step, DoWork;
    var s' := DoWork(su, s, i, io);
    assert p.Held? && p.i < |s.cons| && p.i != i ==> s'.cons[p.i] == s.cons[p.i];
  }

  lemma MessageSettle(s: State, i: nat, end: SettleStep, p: Place)
    requires i < |s.cons| && CanSettle(s.cons[i], end)
    ensures Superseded(DoSettle(s, i, end), p) == if p == Held(i) then end == Republish(Confirmed) else Superseded(s, p)
    ensures Message(DoSettle(s, i, end), p) ==
            if end.Crash? && p == Ready(s.cons[i].tag) then Some(s.cons[i].d)
            else if end.DeadLetter? && p == Dead(s.cons[i].tag) then Some(s.cons[i].d)
            else if end.Republish? && end.reply.Effective() && p == Ready(s.nextTag)
            then Some(s.cons[i].d.(headers := Retry.Next(s.cons[i].d.headers)))
            else if p == Held(i) && !end.Republish? then None
            else Message(s, p)
  {
    hide Retry.Next, Retry.Exhausted;
  }

  lemma MessageEnvironment(su: Setup, s: State, a: Action, p: Place)
    requires Enabled(su, s, a) && (a.AddInstance? || a.RemoveInstance? || a.Quit?)
    ensures Message(Apply(su, s, a), p) == Message(s, p) && Superseded(Apply(su, s, a), p) == Superseded(s, p)
  {
    hide Sql.CanDelete;
  }

  // ---------- what each step does to the books ----------

  lemma BooksCall(su: Setup, s: State, call: nat, step: ApiStep)
    requires CanCall(su, s, call, step)
    ensures var s' := DoCall(su, s, call, step);
      if step.Publish? && step.reply.Effective() then
        s'.h.published == s.h.published[s.nextTag :=
          MessageFor(s.w.db, s.calls[call].jobs[s.calls[call].pos], s.calls[call].task)]
        && s'.h.fails == s.h.fails[s.nextTag := 0] && s'.nextTag == s.nextTag + 1
      else s'.h.published == s.h.published && s'.h.fails == s.h.fails && s'.nextTag == s.nextTag
  {
    hide DoInsert, DoReset, DoWriteStatus, DoReadBack, ListsFailed, ValidInput, MessageFor, Elements, OnlyCall;
  }

  /** A handler step that returns an error counts once, for its own message. */
  lemma BooksWork(su: Setup, s: State, i: nat, io: Io)
    requires i < |s.cons| && s.cons[i].Busy? && Fits(s.cons[i].pc, io)
    ensures var s' := DoWork(su, s, i, io);
      s'.h.fails == if Failed(s'.cons[i]) then Bump(s.h.fails, s.cons[i].d.id) else s.h.fails
  {
    hide Step, OnlyConsumer;
  }

  lemma BooksSettle(s: State, i: nat, end: SettleStep)
    requires i < |s.cons| && CanSettle(s.cons[i], end)
    ensures var s' := DoSettle(s, i, end);
      && s'.h.acked == (if end.Ack? then s.h.acked + {s.cons[i].d.id} else s.h.acked)
      && s'.nextTag == (if end.Republish? && end.reply.Effective() then s.nextTag + 1 else s.nextTag)
  {
    hide OnlyConsumer, Retry.Next, Retry.Exhausted;
  }

  // ---------- whatever fails ----------

  /** A message goes back to a publish, has that publish's body, and carries a count in 0..2. */
  ghost predicate Genuine(published: map<nat, JobMessage>, d: Delivery) {
    d.id in published && d.body == published[d.id] && 0 <= Retry.Count(d.headers) < Retry.MAX_ATTEMPTS
  }

  ghost predicate HasCopy(s: State, id: nat) {
    exists p :: !Superseded(s, p) && Message(s, p).Some? && Message(s, p).value.id == id
  }

  /** Each published message has a copy queued, held or dead-lettered, or was acknowledged after a handler
      run that returned nil; and every message anywhere is genuine. */
  ghost predicate Conserved(s: State) {
    && (forall p | Message(s, p).Some? :: Genuine(s.h.published, Message(s, p).value))
    && (forall id | id in s.h.published :: id < s.nextTag && id in s.h.fails && (id in s.h.acked || HasCopy(s, id)))
    && s.h.acked <= s.h.published.Keys
  }

  lemma FreePlaces(s: State, i: nat)
    requires TagsOk(s)
    ensures Message(s, Ready(s.nextTag)) == None
    ensures i < |s.cons| && !s.cons[i].Idle? ==>
      Message(s, Held(i)) == Some(s.cons[i].d)
      && Message(s, Ready(s.cons[i].tag)) == None && Message(s, Dead(s.cons[i].tag)) == None
  {
  }

  lemma ConservedCall(su: Setup, s: State, call: nat, step: ApiStep)
    requires CanCall(su, s, call, step) && Conserved(s) && TagsOk(s)
    ensures Conserved(DoCall(su, s, call, step))
  {
    hide Message, Superseded, CanCall, DoCall, MessageFor, TagsOk;
    var s' := DoCall(su, s, call, step);
    FreePlaces(s, 0);
    BooksCall(su, s, call, step);
    forall p { MessageCall(su, s, call, step, p); }
    forall id | id in s'.h.published && id !in s'.h.acked ensures HasCopy(s', id) {
      if id in s.h.published && id != s.nextTag {
        var p :| !Superseded(s, p) && Message(s, p).Some? && Message(s, p).value.id == id;
        assert Message(s', p) == Message(s, p) && !Superseded(s', p);
      } else {
        NeverSuperseded(s', s.nextTag);
        assert Message(s', Ready(s.nextTag)).Some? && !Superseded(s', Ready(s.nextTag));
      }
    }
  }

  lemma NeverSuperseded(s: State, t: nat)
    ensures !Superseded(s, Ready(t)) && !Superseded(s, Dead(t))
  {
  }

  lemma ConservedDeliver(s: State, i: nat, tag: nat)
    requires i < |s.cons| && s.cons[i].Idle? && tag in s.ready && Conserved(s)
    ensures Conserved(DoDeliver(s, i, tag))
  {
    assert Message(s, Ready(tag)) == Some(s.ready[tag]) && Message(s, Held(i)) == None;
    ConservedDelivered(s, i, tag);
  }

  lemma ConservedDelivered(s: State, i: nat, tag: nat)
    requires i < |s.cons| && tag in s.ready && Conserved(s)
    requires Message(s, Ready(tag)) == Some(s.ready[tag]) && Message(s, Held(i)) == None
    ensures Conserved(DoDeliver(s, i, tag))
  {
    hide Message, Superseded;
    var s' := DoDeliver(s, i, tag);
    forall p { MessageDeliver(s, i, tag, p); }
    forall id | id in s'.h.published && id !in s'.h.acked ensures HasCopy(s', id) {
      var p :| !Superseded(s, p) && Message(s, p).Some? && Message(s, p).value.id == id;
      if p == Ready(tag) {
        assert Message(s', Held(i)) == Message(s, p) && !Superseded(s', Held(i));
      } else {
        assert Message(s', p) == Message(s, p) && !Superseded(s', p);
      }
    }
  }

  lemma ConservedWork(su: Setup, s: State, i: nat, io: Io)
    requires i < |s.cons| && s.cons[i].Busy? && Fits(s.cons[i].pc, io) && Conserved(s)
    ensures Conserved(DoWork(su, s, i, io))
  {
    hide Message, Superseded, DoWork, Step;
    var s' := DoWork(su, s, i, io);
    BooksWork(su, s, i, io);
    forall p { MessageWork(su, s, i, io, p); }
    forall id | id in s'.h.published && id !in s'.h.acked ensures HasCopy(s', id) {
      var p :| !Superseded(s, p) && Message(s, p).Some? && Message(s, p).value.id == id;
      assert Message(s', p) == Message(s, p) && !Superseded(s', p);
    }
  }

  lemma NextIsGenuine(published: map<nat, JobMessage>, d: Delivery)
    requires Genuine(published, d) && !Retry.Exhausted(d.headers)
    ensures Genuine(published, d.(headers := Retry.Next(d.headers)))
    ensures Retry.Count(Retry.Next(d.headers)) == Retry.Count(d.headers) + 1
  {
    Retry.Next32(d.headers);
  }

  lemma ConservedSettle(s: State, i: nat, end: SettleStep)
    requires i < |s.cons| && CanSettle(s.cons[i], end) && Conserved(s) && TagsOk(s)
    ensures Conserved(DoSettle(s, i, end))
  {
    hide Message, Superseded, DoSettle, TagsOk, Retry.Next, Retry.Exhausted, Retry.Count;
    var c, s' := s.cons[i], DoSettle(s, i, end);
    FreePlaces(s, i);
    BooksSettle(s, i, end);
    forall p { MessageSettle(s, i, end, p); }
    if end.Republish? { NextIsGenuine(s.h.published, c.d); }
    forall id | id in s'.h.published && id !in s'.h.acked ensures HasCopy(s', id) {
      var p :| !Superseded(s, p) && Message(s, p).Some? && Message(s, p).value.id == id;
      HoldsNow(s, i, end);
      NeverSuperseded(s', c.tag);
      NeverSuperseded(s', s.nextTag);
      if p != Held(i) {
        assert Message(s', p) == Message(s, p) && !Superseded(s', p);
      } else if end.Crash? {
        assert Message(s', Ready(c.tag)).Some? && Message(s', Ready(c.tag)).value.id == id;
      } else if end.DeadLetter? {
        assert Message(s', Dead(c.tag)).Some? && Message(s', Dead(c.tag)).value.id == id;
      } else if end.Republish? && end.reply.Effective() {
        assert Message(s', Ready(s.nextTag)).Some? && Message(s', Ready(s.nextTag)).value.id == id;
      } else {
        assert Message(s', p) == Message(s, p) && !Superseded(s', p);
      }
    }
  }

  /** Only a superseded message is acknowledged without a handler run that returned nil. */
  lemma HoldsNow(s: State, i: nat, end: SettleStep)
    requires i < |s.cons| && CanSettle(s.cons[i], end)
    ensures Superseded(s, Held(i)) <==> s.cons[i].Republished?
    ensures end.AckOld? ==> Superseded(s, Held(i))
  {
  }

  lemma ConservedStep(su: Setup, s: State, a: Action)
    requires Enabled(su, s, a) && Conserved(s) && TagsOk(s)
    ensures Conserved(Apply(su, s, a))
  {
    hide CanCall, DoCall, DoWork, DoSettle, DoDeliver, Sql.CanDelete, Step, TagsOk, CanSettle, Message, Superseded;
    hide Genuine;
    match a
    case Api(call, step) => ConservedCall(su, s, call, step);
    case Work(i, io) => ConservedWork(su, s, i, io);
    case Deliver(i, tag) => ConservedDeliver(s, i, tag);
    case Settle(i, end) => ConservedSettle(s, i, end);
    case _ => ConservedEnvironment(su, s, a);
  }

  lemma ConservedEnvironment(su: Setup, s: State, a: Action)
    requires Enabled(su, s, a) && Conserved(s) && (a.AddInstance? || a.RemoveInstance? || a.Quit?)
    ensures Conserved(Apply(su, s, a))
  {
    hide Sql.CanDelete, Message, Superseded, Genuine;
    var s' := Apply(su, s, a);
    forall p { MessageEnvironment(su, s, a, p); }
    forall id | id in s'.h.published && id !in s'.h.acked ensures HasCopy(s', id) {
      var p :| !Superseded(s, p) && Message(s, p).Some? && Message(s, p).value.id == id;
      assert Message(s', p) == Message(s, p) && !Superseded(s', p);
    }
  }

  /** Conservation in every reachable state of every setup, crashes and duplicates included. */
  lemma {:induction false} MessagesAreConserved(su: Setup, run: seq<Action>)
    requires Legal(su, run)
    ensures Conserved(After(su, run))
  {
    hide Enabled, Allowed, Apply, Conserved, References, TagsOk, RowsOk, ReadsOk;
    if run == [] {
      NothingPublished(su);
    } else {
      var before, a := run[..|run| - 1], run[|run| - 1];
      MessagesAreConserved(su, before);
      ReachableStructured(su, before);
      ConservedStep(su, After(su, before), a);
    }
  }

  lemma NothingPublished(su: Setup)
    ensures Conserved(Init(su))
  {
  }

  // ---------- exactly one copy ----------

  /** The setups in which no message is ever duplicated: no reply is lost, and crashes do not meet failed
      handler runs, whose republish and ack they could come between. */
  predicate Single(su: Setup) { !su.losses && !(su.crashes && su.refusals) }

  /** How many failed handler runs a message at this place has behind it, by its header and its stage. */
  function FailsSoFar(s: State, p: Place, d: Delivery): int {
    if p.Held? && p.i < |s.cons| && (Failed(s.cons[p.i]) || s.cons[p.i].RepublishFailed?)
    then Retry.Count(d.headers) + 1 else Retry.Count(d.headers)
  }

  /** `home` names the one place of each published message that is not acknowledged; its header counts the
      failed handler runs exactly. */
  ghost predicate Exact(s: State, home: map<nat, Place>) {
    && (forall id | id in s.h.published && id !in s.h.acked ::
          id in home && !Superseded(s, home[id]) && Message(s, home[id]).Some? && Message(s, home[id]).value.id == id)
    && (forall p | !Superseded(s, p) && Message(s, p).Some? ::
          var d := Message(s, p).value;
          && d.id in s.h.published && d.id !in s.h.acked && d.id in home && home[d.id] == p && d.id in s.h.fails
          && (p.Dead? || s.h.fails[d.id] == FailsSoFar(s, p, d))
          && (p.Dead? ==> 1 <= s.h.fails[d.id] <= Retry.MAX_ATTEMPTS))
  }

  lemma ExactCall(su: Setup, s: State, call: nat, step: ApiStep, home: map<nat, Place>) returns (home': map<nat, Place>)
    requires CanCall(su, s, call, step) && Exact(s, home) && Conserved(s) && TagsOk(s)
    ensures Exact(DoCall(su, s, call, step), home')
  {
    hide Message, Superseded, CanCall, DoCall, MessageFor, TagsOk, HasCopy, Genuine, FailsSoFar;
    var s' := DoCall(su, s, call, step);
    FreePlaces(s, 0);
    BooksCall(su, s, call, step);
    forall p { MessageCall(su, s, call, step, p); }
    NeverSuperseded(s', s.nextTag);
    home' := if step.Publish? && step.reply.Effective() then home[s.nextTag := Ready(s.nextTag)] else home;
    forall p, d ensures FailsSoFar(s', p, d) == FailsSoFar(s, p, d) { SameStageFails(s, s', p, d); }
    if step.Publish? && step.reply.Effective() {
      FreshFails(s', s.nextTag, Message(s', Ready(s.nextTag)).value);
    }
  }

  lemma SameStageFails(s: State, s': State, p: Place, d: Delivery)
    requires |s'.cons| == |s.cons| && (p.Held? && p.i < |s.cons| ==> s'.cons[p.i] == s.cons[p.i])
    ensures FailsSoFar(s', p, d) == FailsSoFar(s, p, d)
  {
  }

  lemma FreshFails(s: State, t: nat, d: Delivery)
    requires d.headers == Retry.NoHeaders
    ensures FailsSoFar(s, Ready(t), d) == 0
  {
  }

  lemma ExactDeliver(s: State, i: nat, tag: nat, home: map<nat, Place>) returns (home': map<nat, Place>)
    requires i < |s.cons| && s.cons[i].Idle? && tag in s.ready && Exact(s, home)
    ensures Exact(DoDeliver(s, i, tag), home')
  {
    assert Message(s, Ready(tag)) == Some(s.ready[tag]) && Message(s, Held(i)) == None;
    var s' := DoDeliver(s, i, tag);
    assert FailsSoFar(s', Held(i), s.ready[tag]) == FailsSoFar(s, Ready(tag), s.ready[tag]);
    home' := ExactDelivered(s, i, tag, home);
  }

  lemma ExactDelivered(s: State, i: nat, tag: nat, home: map<nat, Place>) returns (home': map<nat, Place>)
    requires i < |s.cons| && tag in s.ready && Exact(s, home)
    requires Message(s, Ready(tag)) == Some(s.ready[tag]) && Message(s, Held(i)) == None
    requires FailsSoFar(DoDeliver(s, i, tag), Held(i), s.ready[tag]) == FailsSoFar(s, Ready(tag), s.ready[tag])
    ensures Exact(DoDeliver(s, i, tag), home')
  {
    hide Message, Superseded, FailsSoFar;
    var s' := DoDeliver(s, i, tag);
    forall p { MessageDeliver(s, i, tag, p); }
    NeverSuperseded(s, tag);
    home' := home[s.ready[tag].id := Held(i)];
    forall p, d ensures p != Held(i) ==> FailsSoFar(s', p, d) == FailsSoFar(s, p, d) {
      if p != Held(i) { SameStageFails(s, s', p, d); }
    }
  }

  lemma ExactWork(su: Setup, s: State, i: nat, io: Io, home: map<nat, Place>)
    requires i < |s.cons| && s.cons[i].Busy? && Fits(s.cons[i].pc, io) && Exact(s, home)
    ensures Exact(DoWork(su, s, i, io), home)
  {
    var d, s' := s.cons[i].d, DoWork(su, s, i, io);
    assert Message(s, Held(i)) == Some(d) && !Superseded(s, Held(i));
    assert FailsSoFar(s', Held(i), d) == FailsSoFar(s, Held(i), d) + (if Failed(s'.cons[i]) then 1 else 0) by {
      hide Step, DoWork;
    }
    ExactWorked(su, s, i, io, home);
  }

  lemma ExactWorked(su: Setup, s: State, i: nat, io: Io, home: map<nat, Place>)
    requires i < |s.cons| && s.cons[i].Busy? && Fits(s.cons[i].pc, io) && Exact(s, home)
    requires Message(s, Held(i)) == Some(s.cons[i].d) && !Superseded(s, Held(i))
    requires FailsSoFar(DoWork(su, s, i, io), Held(i), s.cons[i].d)
             == FailsSoFar(s, Held(i), s.cons[i].d) + (if Failed(DoWork(su, s, i, io).cons[i]) then 1 else 0)
    ensures Exact(DoWork(su, s, i, io), home)
  {
    hide Message, Superseded, DoWork, Step, FailsSoFar;
    var s' := DoWork(su, s, i, io);
    BooksWork(su, s, i, io);
    forall p { MessageWork(su, s, i, io, p); }
    forall p, d ensures p != Held(i) ==> FailsSoFar(s', p, d) == FailsSoFar(s, p, d) {
      if p != Held(i) { SameStageFails(s, s', p, d); }
    }
  }

  lemma ExactSettle(s: State, i: nat, end: SettleStep, home: map<nat, Place>) returns (home': map<nat, Place>)
    requires i < |s.cons| && CanSettle(s.cons[i], end) && !end.Crash? && (end.Republish? ==> !end.reply.Lost?)
    requires Exact(s, home) && Conserved(s) && TagsOk(s)
    ensures Exact(DoSettle(s, i, end), home')
  {
    hide Message, Superseded, DoSettle, TagsOk, HasCopy, FailsSoFar, Retry.Next, Retry.Exhausted, Retry.Count;
    var c, s' := s.cons[i], DoSettle(s, i, end);
    FreePlaces(s, i);
    BooksSettle(s, i, end);
    HoldsNow(s, i, end);
    StageFails(s, i, end);
    NeverSuperseded(s', c.tag);
    NeverSuperseded(s', s.nextTag);
    forall p { MessageSettle(s, i, end, p); }
    if end.Republish? { NextIsGenuine(s.h.published, c.d); }
    forall p, d ensures p != Held(i) ==> FailsSoFar(s', p, d) == FailsSoFar(s, p, d) {
      if p != Held(i) { SameStageFails(s, s', p, d); }
    }
    home' := if end.DeadLetter? then home[c.d.id := Dead(c.tag)]
             else if end == Republish(Confirmed) then home[c.d.id := Ready(s.nextTag)] else home;
  }

  lemma ExactCrash(s: State, i: nat, home: map<nat, Place>) returns (home': map<nat, Place>)
    requires i < |s.cons| && s.cons[i].Busy? && !Failed(s.cons[i])
    requires Exact(s, home) && TagsOk(s)
    ensures Exact(DoSettle(s, i, Crash), home')
  {
    hide Message, Superseded, DoSettle, TagsOk, FailsSoFar, Retry.Count;
    var c, s' := s.cons[i], DoSettle(s, i, Crash);
    FreePlaces(s, i);
    BooksSettle(s, i, Crash);
    HoldsNow(s, i, Crash);
    StageFails(s, i, Crash);
    NeverSuperseded(s', c.tag);
    forall p { MessageSettle(s, i, Crash, p); }
    forall p, d ensures p != Held(i) ==> FailsSoFar(s', p, d) == FailsSoFar(s, p, d) {
      if p != Held(i) { SameStageFails(s, s', p, d); }
    }
    home' := home[c.d.id := Ready(c.tag)];
  }

  /** The header at the moment a message is settled. */
  lemma StageFails(s: State, i: nat, end: SettleStep)
    requires i < |s.cons| && CanSettle(s.cons[i], end)
    ensures var s', d := DoSettle(s, i, end), s.cons[i].d;
      && (end.DeadLetter? || end.Republish? ==> FailsSoFar(s, Held(i), d) == Retry.Count(d.headers) + 1)
      && (s.cons[i].Busy? && !Failed(s.cons[i]) ==> FailsSoFar(s, Held(i), d) == Retry.Count(d.headers))
      && (end == Republish(Refused) ==> FailsSoFar(s', Held(i), d) == Retry.Count(d.headers) + 1)
      && (forall t, x :: FailsSoFar(s', Ready(t), x) == Retry.Count(x.headers))
  {
    hide Retry.Next, Retry.Exhausted, Retry.Count, OnlyConsumer;
  }

  /** Where no handler fails, a crash finds its consumer serving. */
  lemma CrashWhileServing(s: State, i: nat)
    requires i < |s.cons| && CanSettle(s.cons[i], Crash) && Tokens.Untroubled(s.cons)
    ensures s.cons[i].Busy? && !Failed(s.cons[i])
  {
  }

  lemma ExactStep(su: Setup, s: State, a: Action, home: map<nat, Place>) returns (home': map<nat, Place>)
    requires Single(su) && Enabled(su, s, a) && Allowed(su, s, a) && (su.crashes ==> Tokens.Untroubled(s.cons))
    requires Exact(s, home) && Conserved(s) && TagsOk(s)
    ensures Exact(Apply(su, s, a), home')
  {
    hide CanCall, DoCall, DoWork, DoSettle, DoDeliver, Sql.CanDelete, Step, TagsOk, CanSettle, Exact, Conserved;
    home' := home;
    match a
    case Api(call, step) => home' := ExactCall(su, s, call, step, home);
    case Work(i, io) => ExactWork(su, s, i, io, home);
    case Deliver(i, tag) => home' := ExactDeliver(s, i, tag, home);
    case Settle(i, end) =>
      if end.Crash? {
        CrashWhileServing(s, i);
        home' := ExactCrash(s, i, home);
      } else {
        home' := ExactSettle(s, i, end, home);
      }
    case _ => ExactEnvironment(su, s, a, home);
  }

  lemma ExactEnvironment(su: Setup, s: State, a: Action, home: map<nat, Place>)
    requires Enabled(su, s, a) && Exact(s, home) && (a.AddInstance? || a.RemoveInstance? || a.Quit?)
    ensures Exact(Apply(su, s, a), home)
  {
    hide Sql.CanDelete, Message, Superseded, FailsSoFar;
    var s' := Apply(su, s, a);
    forall p { MessageEnvironment(su, s, a, p); }
    forall p, d ensures FailsSoFar(s', p, d) == FailsSoFar(s, p, d) { SameStageFails(s, s', p, d); }
  }

  /** In those setups every published message has exactly one copy until it is acknowledged, and the decoded
      header counts its failed handler runs. */
  lemma {:induction false} CopiesAreExact(su: Setup, run: seq<Action>) returns (home: map<nat, Place>)
    requires Single(su) && Legal(su, run)
    ensures Exact(After(su, run), home)
  {
    hide Enabled, Allowed, Apply, Conserved, Exact, References, TagsOk, RowsOk, ReadsOk, Tokens.Untroubled;
    if run == [] {
      home := map[];
      NothingToPlace(su);
    } else {
      var before, a := run[..|run| - 1], run[|run| - 1];
      home := CopiesAreExact(su, before);
      ReachableStructured(su, before);
      MessagesAreConserved(su, before);
      if su.crashes { Tokens.ReachableUntroubled(su, before); }
      home := ExactStep(su, After(su, before), a, home);
    }
  }

  lemma NothingToPlace(su: Setup)
    ensures Exact(Init(su), map[])
  {
  }

  /** Two copies of one message, neither of them just waiting for its acknowledgement. */
  ghost predicate Duplicated(s: State) {
    exists p, q :: p != q && !Superseded(s, p) && !Superseded(s, q)
      && Message(s, p).Some? && Message(s, q).Some? && Message(s, p).value.id == Message(s, q).value.id
  }

  lemma ExactIsSingle(s: State, home: map<nat, Place>)
    requires Exact(s, home)
    ensures !Duplicated(s)
  {
    hide Message, Superseded, FailsSoFar;
  }

  // ---------- exact counts ----------

  /** The setups in which the header counts failed runs: a crash never undoes a failed run's count. */
  predicate Countable(su: Setup) { !su.crashes || (!su.refusals && !su.losses) }

  /** The message at `p` is queued or being served: it has runs ahead of it. */
  predicate Live(s: State, p: Place) {
    p.Ready? || (p.Held? && p.i < |s.cons| && s.cons[p.i].Busy?)
  }

  /** `home` names the only live copy of a message, and its header counts the failed runs exactly; lost
      replies may leave further copies in the dead-letter queue. */
  ghost predicate Counted(s: State, home: map<nat, Place>) {
    forall p | Live(s, p) && Message(s, p).Some? ::
      var d := Message(s, p).value;
      d.id in home && home[d.id] == p && d.id in s.h.fails && s.h.fails[d.id] == FailsSoFar(s, p, d)
  }

  lemma LiveStays(s: State, s': State, p: Place)
    requires |s'.cons| == |s.cons| && (p.Held? && p.i < |s.cons| ==> s'.cons[p.i] == s.cons[p.i])
    ensures Live(s', p) == Live(s, p)
  {
  }

  lemma ReadyIsLive(s: State, t: nat)
    ensures Live(s, Ready(t)) && !Live(s, Dead(t))
  {
  }

  lemma CountedCall(su: Setup, s: State, call: nat, step: ApiStep, home: map<nat, Place>)
    returns (home': map<nat, Place>)
    requires CanCall(su, s, call, step) && Counted(s, home) && Conserved(s) && TagsOk(s)
    ensures Counted(DoCall(su, s, call, step), home')
  {
    hide Message, Superseded, CanCall, DoCall, MessageFor, TagsOk, HasCopy, Genuine, FailsSoFar, Live;
    var s' := DoCall(su, s, call, step);
    FreePlaces(s, 0);
    BooksCall(su, s, call, step);
    forall p { MessageCall(su, s, call, step, p); }
    home' := if step.Publish? && step.reply.Effective() then home[s.nextTag := Ready(s.nextTag)] else home;
    forall p, d ensures FailsSoFar(s', p, d) == FailsSoFar(s, p, d) { SameStageFails(s, s', p, d); }
    forall p ensures Live(s', p) == Live(s, p) { LiveStays(s, s', p); }
    if step.Publish? && step.reply.Effective() {
      FreshFails(s', s.nextTag, Message(s', Ready(s.nextTag)).value);
      forall p | Message(s, p).Some? ensures Message(s, p).value.id < s.nextTag {
        IdBelowTag(s, p);
      }
    }
  }

  lemma IdBelowTag(s: State, p: Place)
    requires Conserved(s) && Message(s, p).Some?
    ensures Message(s, p).value.id < s.nextTag && Message(s, p).value.id in s.h.fails
  {
    hide Message, Superseded, HasCopy;
    assert Genuine(s.h.published, Message(s, p).value);
  }

  lemma CountedDeliver(s: State, i: nat, tag: nat, home: map<nat, Place>) returns (home': map<nat, Place>)
    requires i < |s.cons| && s.cons[i].Idle? && tag in s.ready && Counted(s, home)
    ensures Counted(DoDeliver(s, i, tag), home')
  {
    var d, s' := s.ready[tag], DoDeliver(s, i, tag);
    assert Message(s, Ready(tag)) == Some(d) && Live(s, Ready(tag)) && Live(s', Held(i));
    assert FailsSoFar(s', Held(i), d) == FailsSoFar(s, Ready(tag), d);
    home' := CountedDelivered(s, i, tag, home);
  }

  lemma CountedDelivered(s: State, i: nat, tag: nat, home: map<nat, Place>) returns (home': map<nat, Place>)
    requires i < |s.cons| && tag in s.ready && Counted(s, home)
    requires Message(s, Ready(tag)) == Some(s.ready[tag]) && Live(s, Ready(tag))
    requires FailsSoFar(DoDeliver(s, i, tag), Held(i), s.ready[tag]) == FailsSoFar(s, Ready(tag), s.ready[tag])
    ensures Counted(DoDeliver(s, i, tag), home')
  {
    hide Message, FailsSoFar, Live;
    var s' := DoDeliver(s, i, tag);
    forall p { MessageDeliver(s, i, tag, p); }
    home' := home[s.ready[tag].id := Held(i)];
    forall p, d ensures p != Held(i) ==> FailsSoFar(s', p, d) == FailsSoFar(s, p, d) {
      if p != Held(i) { SameStageFails(s, s', p, d); }
    }
    forall p ensures p != Held(i) ==> Live(s', p) == Live(s, p) { if p != Held(i) { LiveStays(s, s', p); } }
  }

  lemma CountedWork(su: Setup, s: State, i: nat, io: Io, home: map<nat, Place>)
    requires i < |s.cons| && s.cons[i].Busy? && Fits(s.cons[i].pc, io) && Counted(s, home)
    ensures Counted(DoWork(su, s, i, io), home)
  {
    var d, s' := s.cons[i].d, DoWork(su, s, i, io);
    assert Message(s, Held(i)) == Some(d) && Live(s, Held(i)) && Live(s', Held(i)) by { hide Step, DoWork; }
    assert FailsSoFar(s', Held(i), d) == FailsSoFar(s, Held(i), d) + (if Failed(s'.cons[i]) then 1 else 0) by {
      hide Step, DoWork;
    }
    CountedWorked(su, s, i, io, home);
  }

  lemma CountedWorked(su: Setup, s: State, i: nat, io: Io, home: map<nat, Place>)
    requires i < |s.cons| && s.cons[i].Busy? && Fits(s.cons[i].pc, io) && Counted(s, home)
    requires Message(s, Held(i)) == Some(s.cons[i].d) && Live(s, Held(i)) && Live(DoWork(su, s, i, io), Held(i))
    requires FailsSoFar(DoWork(su, s, i, io), Held(i), s.cons[i].d)
             == FailsSoFar(s, Held(i), s.cons[i].d) + (if Failed(DoWork(su, s, i, io).cons[i]) then 1 else 0)
    ensures Counted(DoWork(su, s, i, io), home)
  {
    hide Message, DoWork, Step, FailsSoFar, Live;
    var s' := DoWork(su, s, i, io);
    BooksWork(su, s, i, io);
    forall p { MessageWork(su, s, i, io, p); }
    forall p, d ensures p != Held(i) ==> FailsSoFar(s', p, d) == FailsSoFar(s, p, d) {
      if p != Held(i) { SameStageFails(s, s', p, d); }
    }
    forall p ensures p != Held(i) ==> Live(s', p) == Live(s, p) { if p != Held(i) { LiveStays(s, s', p); } }
  }

  lemma CountedSettle(s: State, i: nat, end: SettleStep, home: map<nat, Place>) returns (home': map<nat, Place>)
    requires i < |s.cons| && CanSettle(s.cons[i], end)
    requires end.Crash? ==> s.cons[i].Busy? && !Failed(s.cons[i])
    requires Counted(s, home) && Conserved(s) && TagsOk(s)
    ensures Counted(DoSettle(s, i, end), home')
  {
    hide Message, Superseded, DoSettle, TagsOk, HasCopy, FailsSoFar, Live, Retry.Next, Retry.Exhausted, Retry.Count;
    var c, s' := s.cons[i], DoSettle(s, i, end);
    FreePlaces(s, i);
    BooksSettle(s, i, end);
    StageFails(s, i, end);
    SettledIsNotLive(s, i, end);
    forall t { ReadyIsLive(s', t); }
    forall p { MessageSettle(s, i, end, p); }
    if end.Republish? { NextIsGenuine(s.h.published, c.d); }
    forall p, d ensures p != Held(i) ==> FailsSoFar(s', p, d) == FailsSoFar(s, p, d) {
      if p != Held(i) { SameStageFails(s, s', p, d); }
    }
    forall p ensures p != Held(i) ==> Live(s', p) == Live(s, p) { if p != Held(i) { LiveStays(s, s', p); } }
    home' := if end.Crash? then home[c.d.id := Ready(c.tag)]
             else if end.Republish? && end.reply.Effective() then home[c.d.id := Ready(s.nextTag)] else home;
  }

  lemma SettledIsNotLive(s: State, i: nat, end: SettleStep)
    requires i < |s.cons| && CanSettle(s.cons[i], end)
    ensures !Live(DoSettle(s, i, end), Held(i))
    ensures (end.Republish? || end.Crash?) && s.cons[i].Busy? ==> Live(s, Held(i))
    ensures end.Republish? ==> s.cons[i].Busy?
  {
    hide Retry.Next, Retry.Exhausted, OnlyConsumer;
  }

  lemma CountedStep(su: Setup, s: State, a: Action, home: map<nat, Place>) returns (home': map<nat, Place>)
    requires Countable(su) && Enabled(su, s, a) && Allowed(su, s, a) && (su.crashes ==> Tokens.Untroubled(s.cons))
    requires Counted(s, home) && Conserved(s) && TagsOk(s)
    ensures Counted(Apply(su, s, a), home')
  {
    hide CanCall, DoCall, DoWork, DoSettle, DoDeliver, Sql.CanDelete, Step, TagsOk, CanSettle, Counted, Conserved;
    home' := home;
    match a
    case Api(call, step) => home' := CountedCall(su, s, call, step, home);
    case Work(i, io) => CountedWork(su, s, i, io, home);
    case Deliver(i, tag) => home' := CountedDeliver(s, i, tag, home);
    case Settle(i, end) =>
      if end.Crash? { CrashWhileServing(s, i); }
      home' := CountedSettle(s, i, end, home);
    case _ => CountedEnvironment(su, s, a, home);
  }

  lemma CountedEnvironment(su: Setup, s: State, a: Action, home: map<nat, Place>)
    requires Enabled(su, s, a) && Counted(s, home) && (a.AddInstance? || a.RemoveInstance? || a.Quit?)
    ensures Counted(Apply(su, s, a), home)
  {
    hide Sql.CanDelete, Message, Superseded, FailsSoFar, Live;
    var s' := Apply(su, s, a);
    forall p { MessageEnvironment(su, s, a, p); }
    forall p, d ensures FailsSoFar(s', p, d) == FailsSoFar(s, p, d) { SameStageFails(s, s', p, d); }
    forall p ensures Live(s', p) == Live(s, p) { LiveStays(s, s', p); }
  }

  /** In those setups, lost replies included, a message has at most one live copy, and that copy's decoded
      header is the number of its failed handler runs. */
  lemma {:induction false} CountsAreExact(su: Setup, run: seq<Action>) returns (home: map<nat, Place>)
    requires Countable(su) && Legal(su, run)
    ensures Counted(After(su, run), home)
  {
    hide Enabled, Allowed, Apply, Conserved, Counted, References, TagsOk, RowsOk, ReadsOk, Tokens.Untroubled;
    if run == [] {
      home := map[];
      NothingToCount(su);
    } else {
      var before, a := run[..|run| - 1], run[|run| - 1];
      home := CountsAreExact(su, before);
      ReachableStructured(su, before);
      MessagesAreConserved(su, before);
      if su.crashes { Tokens.ReachableUntroubled(su, before); }
      home := CountedStep(su, After(su, before), a, home);
    }
  }

  lemma NothingToCount(su: Setup)
    ensures Counted(Init(su), map[])
  {
  }

  /** Every live copy's header is the number of its message's failed runs. */
  ghost predicate HeadersCount(s: State) {
    forall p | Live(s, p) && Message(s, p).Some? ::
      var d := Message(s, p).value; d.id in s.h.fails && s.h.fails[d.id] == FailsSoFar(s, p, d)
  }

  lemma CountedHeaders(s: State, home: map<nat, Place>)
    requires Counted(s, home)
    ensures HeadersCount(s)
  {
    hide Message, FailsSoFar, Live;
  }

  /** What Consume decides after a failed run: the third failure is dead-lettered, the first two are
      republished with a count one higher and the same body. */
  lemma ThirdFailureIsDeadLettered(su: Setup, run: seq<Action>, i: nat)
    requires Countable(su) && Legal(su, run)
    requires i < |After(su, run).cons| && Failed(After(su, run).cons[i])
    ensures var s := After(su, run);
      var d := s.cons[i].d;
      && d.id in s.h.fails && 1 <= s.h.fails[d.id] <= Retry.MAX_ATTEMPTS
      && Retry.Count(d.headers) == s.h.fails[d.id] - 1
      && (CanSettle(s.cons[i], DeadLetter) <==> s.h.fails[d.id] == Retry.MAX_ATTEMPTS)
      && (CanSettle(s.cons[i], Republish(Confirmed)) <==> s.h.fails[d.id] < Retry.MAX_ATTEMPTS)
  {
    hide After, Legal;
    var home := CountsAreExact(su, run);
    MessagesAreConserved(su, run);
    FailedIsCounted(After(su, run), i, home);
  }

  lemma FailedIsCounted(s: State, i: nat, home: map<nat, Place>)
    requires Counted(s, home) && Conserved(s) && i < |s.cons| && Failed(s.cons[i])
    ensures var d := s.cons[i].d;
      && d.id in s.h.fails && 1 <= s.h.fails[d.id] <= Retry.MAX_ATTEMPTS
      && Retry.Count(d.headers) == s.h.fails[d.id] - 1
      && (Retry.Exhausted(d.headers) <==> s.h.fails[d.id] == Retry.MAX_ATTEMPTS)
  {
    hide HasCopy;
    assert Message(s, Held(i)) == Some(s.cons[i].d) && Live(s, Held(i));
    if Retry.Count(s.cons[i].d.headers) < 2 { Retry.Next32(s.cons[i].d.headers); }
  }

  /** A delivery is acknowledged as done only after its handler's result reached the jobs table. */
  lemma AckFollowsResult(su: Setup, run: seq<Action>, i: nat)
    requires Legal(su, run) && i < |After(su, run).cons| && CanSettle(After(su, run).cons[i], Ack)
    ensures After(su, run).cons[i].pc.wrote
  {
    hide After, Legal, Sql.WellFormed, CallsOk, MessagesOk;
    ReachableStructured(su, run);
    assert ConsumerOk(After(su, run).w.db, After(su, run).cons[i]);
  }

  /** A dead-lettered message stays dead-lettered: the dead-letter queue only grows. */
  lemma {:induction false} DeadLettersStay(su: Setup, run: seq<Action>, k: nat, t: nat)
    requires Legal(su, run) && k <= |run| && Legal(su, run[..k]) && t in After(su, run[..k]).dlq
    ensures t in After(su, run).dlq && After(su, run).dlq[t] == After(su, run[..k]).dlq[t] && t !in After(su, run).ready
  {
    hide Enabled, Allowed, Apply, References, RowsOk, ReadsOk;
    ReachableStructured(su, run);
    if k == |run| {
      assert run[..k] == run;
    } else {
      var before, a := run[..|run| - 1], run[|run| - 1];
      assert before[..k] == run[..k];
      DeadLettersStay(su, before, k, t);
      ReachableStructured(su, before);
      DeadLetterKept(su, After(su, before), a, t);
    }
  }

  lemma DeadLetterKept(su: Setup, s: State, a: Action, t: nat)
    requires Enabled(su, s, a) && TagsOk(s) && t in s.dlq
    ensures t in Apply(su, s, a).dlq && Apply(su, s, a).dlq[t] == s.dlq[t]
  {
    hide CanCall, DoCall, DoWork, DoSettle, Sql.CanDelete, Step, CanSettle, Retry.Next, Retry.Exhausted, TagsOk;
    if a.Settle? { SettledLetters(s, a.i, a.end, t); }
  }

  lemma SettledLetters(s: State, i: nat, end: SettleStep, t: nat)
    requires i < |s.cons| && CanSettle(s.cons[i], end) && t in s.dlq && TagsOk(s)
    ensures t in DoSettle(s, i, end).dlq && DoSettle(s, i, end).dlq[t] == s.dlq[t]
  {
    hide Retry.Next, Retry.Exhausted, OnlyConsumer;
  }
}
