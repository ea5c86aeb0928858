/** Trust on first use: the host key callback of one SSH connection. */
module HostKey {
  import opened Types
  import Sql

  /** What the callback decides, and whether it calls the pin callback. */
  datatype Verdict = Verdict(accepted: bool, pins: bool)

  /** `pin` is how the pin callback's UPDATE ends, or None when no callback is configured. */
  function Verify(expected: string, pin: Option<Reply>, key: string): Verdict {
    if expected == "" then
      if pin.None? then Verdict(false, false) else Verdict(pin.value.Confirmed?, true)
    else Verdict(key == expected, false)
  }

  /** One dial: the host is not reached, or it presents a key; `open` is all that follows
      (authentication, session, the remote command reporting a status). */
  datatype Dial = Unreachable | Presented(key: string, reply: Reply, open: bool)

  function Decide(snapshot: Option<string>, dial: Dial): Verdict {
    if dial.Unreachable? then Verdict(false, false)
    else if snapshot.Some? then Verify(snapshot.value, None, dial.key)
    else Verify("", Some(dial.reply), dial.key)
  }

  /** A connection made by a worker that read `snapshot` from the instance row. */
  function Connect(db: Sql.Db, inst: nat, snapshot: Option<string>, dial: Dial): (Sql.Db, bool) {
    var v := Decide(snapshot, dial);
    (if v.pins && dial.reply.Effective() then Sql.PinHostKey(db, inst, dial.key) else db,
     v.accepted && dial.open)
  }

  /** Exactly when a worker takes a key that is not the stored one: it read the row before the pin
      was stored, and its own pin UPDATE (which matches no row) reports no error. */
  lemma MismatchAccepted(db: Sql.Db, inst: nat, snapshot: Option<string>, dial: Dial)
    requires inst in db.instances && db.instances[inst].pin.Some?
    requires snapshot.Some? ==> snapshot == db.instances[inst].pin
    requires dial.Presented? && Some(dial.key) != db.instances[inst].pin
    ensures Decide(snapshot, dial).accepted <==> snapshot.None? && dial.reply.Confirmed?
    ensures Connect(db, inst, snapshot, dial).0 == db
  {
  }
}
