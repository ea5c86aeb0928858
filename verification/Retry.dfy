/** The x-retry-count header: decoding it, and the republish loop it bounds. */
module Retry {

  const MAX_ATTEMPTS := 3
  const HEADER := "x-retry-count"
  const TWO31 := 0x8000_0000
  const TWO63 := 0x8000_0000_0000_0000

  type i32 = x: int | -TWO31 <= x < TWO31
  type i64 = x: int | -TWO63 <= x < TWO63

  /** A header value as the AMQP client hands it over; Go's int is 64 bits wide here. */
  datatype Value = Int32(n32: i32) | Int64(n64: i64) | Int(n: i64) | Foreign(text: string)
  datatype Headers = NoHeaders | Table(entries: map<string, Value>)

  function WrapTo64(x: int): i64 {
    (x + TWO63) % (2 * TWO63) - TWO63
  }

  function TruncateTo32(x: int): i32 {
    (x + TWO31) % (2 * TWO31) - TWO31
  }

  function Count(h: Headers): i64 {
    if h.NoHeaders? || HEADER !in h.entries then 0
    else match h.entries[HEADER]
      case Int32(n) => n
      case Int64(n) => n
      case Int(n) => n
      case Foreign(_) => 0
  }

  /** After a failed handler run: is the message dead-lettered rather than republished? */
  predicate Exhausted(h: Headers) {
    WrapTo64(Count(h) + 1) >= MAX_ATTEMPTS
  }

  /** The header table of the republished copy. */
  function Next(h: Headers): Headers {
    var kept := if h.Table? then h.entries else map[];
    Table(kept[HEADER := Int32(TruncateTo32(WrapTo64(Count(h) + 1)))])
  }

  /** A count is read whatever integer width it was sent with; anything else counts as none. */
  lemma CountReads(others: map<string, Value>, n: i32, text: string)
    ensures Count(Table(others[HEADER := Int32(n)])) == n
    ensures Count(Table(others[HEADER := Int64(n)])) == n && Count(Table(others[HEADER := Int(n)])) == n
    ensures Count(Table(others[HEADER := Foreign(text)])) == 0 && Count(NoHeaders) == 0
    ensures HEADER !in others ==> Count(Table(others)) == 0
  {
  }

  lemma SmallStays(x: int)
    requires -TWO31 <= x < TWO31
    ensures WrapTo64(x) == TruncateTo32(x) == x
  {
  }

  lemma Next32(h: Headers)
    requires -TWO31 <= Count(h) < 2
    ensures !Exhausted(h) && Count(Next(h)) == Count(h) + 1
  {
    hide WrapTo64, TruncateTo32;
    SmallStays(Count(h) + 1);
  }

  lemma NextRange(h: Headers)
    ensures -TWO31 <= Count(Next(h)) < TWO31
  {
    hide WrapTo64;
  }

  /** Only the largest 64-bit number wraps around. */
  lemma LargeIsExhausted(h: Headers)
    requires Count(h) >= 2
    ensures Exhausted(h) <==> Count(h) != TWO63 - 1
  {
    hide Count;
  }

  /** How far a table is from the queue's end: at most this many failed runs are left. */
  ghost function Distance(h: Headers): nat {
    if -TWO31 <= Count(h) < 2 then 3 - Count(h)
    else if Exhausted(h) then 1 else TWO31 + 4
  }

  /** Handler failures, one after another, until the copy carrying `h` is dead-lettered. */
  ghost function FailuresUntilDead(h: Headers): nat
    decreases Distance(h)
  {
    if Exhausted(h) then 1
    else
      assert Distance(Next(h)) < Distance(h) by {
        NextRange(h);
        if -TWO31 <= Count(h) < 2 { Next32(h); }
      }
      1 + FailuresUntilDead(Next(h))
  }

  lemma {:induction false} FailuresFrom32(h: Headers)
    requires -TWO31 <= Count(h) <= 2
    ensures FailuresUntilDead(h) == 3 - Count(h)
    decreases 3 - Count(h)
  {
    if Count(h) < 2 {
      Next32(h);
      FailuresFrom32(Next(h));
    }
  }

  /** Whatever table a message arrives with (absent, foreign type, negative, 64-bit), it is
      dead-lettered after at most 2^31 + 4 handler failures; a fresh message after exactly three. */
  lemma LoopStops(h: Headers)
    ensures 1 <= FailuresUntilDead(h) <= TWO31 + 4
    ensures Count(h) == 0 ==> FailuresUntilDead(h) == MAX_ATTEMPTS
    ensures Count(h) >= 2 && Count(h) != TWO63 - 1 ==> FailuresUntilDead(h) == 1
  {
    hide Count, Exhausted, Next;
    if Count(h) >= 2 { LargeIsExhausted(h); }
    if -TWO31 <= Count(h) <= 2 {
      FailuresFrom32(h);
    } else if !Exhausted(h) {
      NextRange(h);
      if Count(Next(h)) <= 2 { FailuresFrom32(Next(h)); } else { LargeIsExhausted(Next(h)); }
    }
  }

  /** The bound is reached: a 64-bit value whose successor truncates to the least 32-bit one. */
  lemma BoundIsTight()
    ensures FailuresUntilDead(Table(map[HEADER := Int64(-TWO31 - 1 - 2 * TWO31)])) == TWO31 + 4
  {
    var h := Table(map[HEADER := Int64(-TWO31 - 1 - 2 * TWO31)]);
    assert Count(Next(h)) == -TWO31;
    FailuresFrom32(Next(h));
  }

  /** A republish changes no other header, and sends the count as a 32-bit integer. */
  lemma NextKeepsOthers(h: Headers, key: string)
    requires key != HEADER
    ensures HEADER in Next(h).entries && Next(h).entries[HEADER].Int32?
    ensures key in Next(h).entries <==> h.Table? && key in h.entries
    ensures h.Table? && key in h.entries ==> Next(h).entries[key] == h.entries[key]
  {
  }
}
