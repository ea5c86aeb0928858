/** Decimal numerals, as fmt writes them for %d. */
module Text {
  function Digit(d: nat): char
    requires d < 10
  {
    '0' + d as char
  }

  predicate IsDigit(c: char) { '0' <= c <= '9' }

  function Decimal(n: nat): (s: string)
    ensures s != "" && forall c | c in s :: IsDigit(c)
  {
    if n < 10 then [Digit(n)] else Decimal(n / 10) + [Digit(n % 10)]
  }

  function Value(s: string): nat
    requires forall c | c in s :: IsDigit(c)
  {
    if s == "" then 0
    else
      var c := s[|s| - 1];
      assert c in s;
      assert IsDigit(c);
      10 * Value(s[..|s| - 1]) + (c as int - '0' as int)
  }

  lemma {:induction false} DecimalValue(n: nat)
    ensures Value(Decimal(n)) == n
  {
    if n >= 10 {
      DecimalValue(n / 10);
      var s := Decimal(n / 10) + [Digit(n % 10)];
      assert s[..|s| - 1] == Decimal(n / 10);
    }
  }

  /** How many digits a text starts with. */
  function Digits(t: string): (n: nat)
    ensures n <= |t| && (forall k | 0 <= k < n :: IsDigit(t[k])) && (n < |t| ==> !IsDigit(t[n]))
  {
    if t == "" || !IsDigit(t[0]) then 0 else 1 + Digits(t[1..])
  }

  lemma {:induction false} NumeralEnds(s: string, t: string)
    requires (forall c | c in s :: IsDigit(c)) && (t == "" || !IsDigit(t[0]))
    ensures Digits(s + t) == |s|
  {
    if s == "" {
      assert s + t == t;
    } else {
      assert (s + t)[0] == s[0] && s[0] in s && (s + t)[1..] == s[1..] + t;
      assert forall c | c in s[1..] :: c in s;
      NumeralEnds(s[1..], t);
    }
  }

  /** The numbers of a query's $n placeholders, in the order of the text. */
  function Placeholders(t: string): seq<nat>
    decreases |t|
  {
    if t == "" then []
    else if t[0] == '$' then
      var n := Digits(t[1..]);
      [Value(t[1..][..n])] + Placeholders(t[1..][n..])
    else Placeholders(t[1..])
  }

  lemma {:induction false} NoPlaceholder(s: string, t: string)
    requires forall c | c in s :: c != '$'
    ensures Placeholders(s + t) == Placeholders(t)
  {
    if s == "" {
      assert s + t == t;
    } else {
      assert (s + t)[0] == s[0] && s[0] in s && (s + t)[1..] == s[1..] + t;
      assert forall c | c in s[1..] :: c in s;
      NoPlaceholder(s[1..], t);
    }
  }

  lemma OnePlaceholder(n: nat, t: string)
    requires t == "" || !IsDigit(t[0])
    ensures Placeholders("$" + Decimal(n) + t) == [n] + Placeholders(t)
  {
    hide Placeholders, Decimal, Digits, Value;
    var s := Decimal(n);
    var u := "$" + s + t;
    assert u[0] == '$' && u[1..] == s + t;
    NumeralEnds(s, t);
    DecimalValue(n);
    assert (s + t)[..|s|] == s && (s + t)[|s|..] == t;
    StartsWithPlaceholder(u);
  }

  lemma StartsWithPlaceholder(t: string)
    requires t != "" && t[0] == '$'
    ensures var n := Digits(t[1..]); Placeholders(t) == [Value(t[1..][..n])] + Placeholders(t[1..][n..])
  {
  }

  // ---------- splitting ----------

  /** The pieces of a text between separators. */
  function Split(t: string, sep: char): (ps: seq<string>)
    ensures |ps| >= 1
  {
    if t == "" then [""]
    else
      var rest := Split(t[1..], sep);
      if t[0] == sep then [""] + rest else [[t[0]] + rest[0]] + rest[1..]
  }

  predicate Without(s: string, sep: char) { forall c | c in s :: c != sep }

  lemma {:induction false} SplitOne(s: string, sep: char)
    requires Without(s, sep)
    ensures Split(s, sep) == [s]
  {
    if s != "" {
      assert s[0] in s && forall c | c in s[1..] :: c in s;
      SplitOne(s[1..], sep);
      assert [s[0]] + s[1..] == s;
    }
  }

  /** Splitting two texts with a separator between them. */
  lemma {:induction false} SplitBoth(s: string, sep: char, t: string)
    ensures Split(s + [sep] + t, sep) == Split(s, sep) + Split(t, sep)
  {
    var u := s + [sep] + t;
    if s == "" {
      assert u[0] == sep && u[1..] == t;
    } else {
      assert u[0] == s[0] && u[1..] == s[1..] + [sep] + t;
      SplitBoth(s[1..], sep, t);
    }
  }

  lemma SplitAt(s: string, sep: char, t: string)
    requires Without(s, sep)
    ensures Split(s + [sep] + t, sep) == [s] + Split(t, sep)
  {
    hide Split;
    SplitBoth(s, sep, t);
    SplitOne(s, sep);
  }
}
