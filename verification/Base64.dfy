/** Base64 of section 4 of RFC 4648: four characters for three bytes, = as padding. */
module Base64 {
  import opened Types

  type byte = x: int | 0 <= x < 256
  type sextet = x: int | 0 <= x < 64

  function Char(v: sextet): char {
    if v < 26 then 'A' + v as char
    else if v < 52 then 'a' + (v - 26) as char
    else if v < 62 then '0' + (v - 52) as char
    else if v == 62 then '+' else '/'
  }

  function Index(c: char): Option<sextet> {
    if 'A' <= c <= 'Z' then Some(c as int - 'A' as int)
    else if 'a' <= c <= 'z' then Some(c as int - 'a' as int + 26)
    else if '0' <= c <= '9' then Some(c as int - '0' as int + 52)
    else if c == '+' then Some(62)
    else if c == '/' then Some(63)
    else None
  }

  /** The four sextets of three bytes. */
  function Bits0(x: byte): sextet { x / 4 }
  function Bits1(x: byte, y: byte): sextet { x % 4 * 16 + y / 16 }
  function Bits2(y: byte, z: byte): sextet { y % 16 * 4 + z / 64 }
  function Bits3(z: byte): sextet { z % 64 }

  function Encode(bs: seq<byte>): string {
    if bs == [] then ""
    else if |bs| == 1 then [Char(Bits0(bs[0])), Char(Bits1(bs[0], 0)), '=', '=']
    else if |bs| == 2 then [Char(Bits0(bs[0])), Char(Bits1(bs[0], bs[1])), Char(Bits2(bs[1], 0)), '=']
    else
      [Char(Bits0(bs[0])), Char(Bits1(bs[0], bs[1])), Char(Bits2(bs[1], bs[2])), Char(Bits3(bs[2]))] + Encode(bs[3..])
  }

  /** The bytes of one group of sextets. */
  function First(a: sextet, b: sextet): byte { a * 4 + b / 16 }
  function Second(b: sextet, c: sextet): byte { b % 16 * 16 + c / 4 }
  function Third(c: sextet, d: sextet): byte { c % 4 * 64 + d }

  function Decode(s: string): Option<seq<byte>> {
    if s == "" then Some([])
    else if |s| < 4 || Index(s[0]).None? || Index(s[1]).None? then None
    else
      var a, b := Index(s[0]).value, Index(s[1]).value;
      if s[2..] == "==" then Some([First(a, b)])
      else if Index(s[2]).None? then None
      else
        var c := Index(s[2]).value;
        if s[3..] == "=" then Some([First(a, b), Second(b, c)])
        else if Index(s[3]).None? then None
        else
          var d := Index(s[3]).value;
          var rest := Decode(s[4..]);
          if rest.None? then None else Some([First(a, b), Second(b, c), Third(c, d)] + rest.value)
  }

  predicate Letter(c: char) { c == '=' || Index(c).Some? }

  lemma CharIndex(v: sextet)
    ensures Index(Char(v)) == Some(v) && Char(v) != '='
  {
  }

  lemma Group(x: byte, y: byte, z: byte)
    ensures First(Bits0(x), Bits1(x, y)) == x
    ensures Second(Bits1(x, y), Bits2(y, z)) == y
    ensures Third(Bits2(y, z), Bits3(z)) == z
  {
  }

  /** A full group in front of a text that decodes. */
  lemma DecodeGroup(a: sextet, b: sextet, c: sextet, d: sextet, s: string)
    requires Decode(s).Some?
    ensures Decode([Char(a), Char(b), Char(c), Char(d)] + s) ==
            Some([First(a, b), Second(b, c), Third(c, d)] + Decode(s).value)
  {
    hide Char, Index, First, Second, Third;
    var t := [Char(a), Char(b), Char(c), Char(d)] + s;
    assert t[0] == Char(a) && t[1] == Char(b) && t[2] == Char(c) && t[3] == Char(d) && t[4..] == s;
    CharIndex(a);
    CharIndex(b);
    CharIndex(c);
    CharIndex(d);
    assert t[2..][0] == Char(c) && t[3..][0] == Char(d);
  }

  lemma LastOne(x: byte)
    ensures Decode([Char(Bits0(x)), Char(Bits1(x, 0)), '=', '=']) == Some([x])
  {
    hide Char, Index, First, Second, Third, Bits0, Bits1;
    var s := [Char(Bits0(x)), Char(Bits1(x, 0)), '=', '='];
    Group(x, 0, 0);
    CharIndex(Bits0(x));
    CharIndex(Bits1(x, 0));
    assert s[2..] == "==";
  }

  lemma LastTwo(x: byte, y: byte)
    ensures Decode([Char(Bits0(x)), Char(Bits1(x, y)), Char(Bits2(y, 0)), '=']) == Some([x, y])
  {
    hide Char, Index, First, Second, Third, Bits0, Bits1, Bits2;
    var s := [Char(Bits0(x)), Char(Bits1(x, y)), Char(Bits2(y, 0)), '='];
    Group(x, y, 0);
    CharIndex(Bits0(x));
    CharIndex(Bits1(x, y));
    CharIndex(Bits2(y, 0));
    assert s[2..][0] == s[2] && s[3..] == "=";
  }

  /** Any bytes come back. */
  lemma {:induction false} RoundTrip(bs: seq<byte>)
    ensures Decode(Encode(bs)) == Some(bs)
  {
    hide Char, Index, First, Second, Third, Decode, Bits0, Bits1, Bits2, Bits3;
    if bs == [] {
      DecodeNothing();
    } else if |bs| == 1 {
      LastOne(bs[0]);
      assert bs == [bs[0]];
    } else if |bs| == 2 {
      LastTwo(bs[0], bs[1]);
      assert bs == [bs[0], bs[1]];
    } else {
      RoundTrip(bs[3..]);
      Group(bs[0], bs[1], bs[2]);
      DecodeGroup(Bits0(bs[0]), Bits1(bs[0], bs[1]), Bits2(bs[1], bs[2]), Bits3(bs[2]), Encode(bs[3..]));
      assert bs == [bs[0], bs[1], bs[2]] + bs[3..];
    }
  }

  lemma DecodeNothing()
    ensures Decode("") == Some([])
  {
  }

  /** The text holds nothing but the alphabet and padding. */
  lemma {:induction false} OnlyLetters(bs: seq<byte>)
    ensures forall c | c in Encode(bs) :: Letter(c)
  {
    hide Char, Index, Bits0, Bits1, Bits2, Bits3;
    forall v: sextet ensures Letter(Char(v)) { CharIndex(v); }
    if |bs| > 2 { OnlyLetters(bs[3..]); }
  }

  /** The alphabet: A to Z, a to z, 0 to 9, + and /. */
  lemma AlphabetInOrder(v: sextet)
    ensures Char(0) == 'A' && Char(25) == 'Z' && Char(26) == 'a' && Char(51) == 'z'
    ensures Char(52) == '0' && Char(61) == '9'
    ensures Char(62) == '+' && Char(63) == '/'
    ensures v != 25 && v != 51 && v < 61 ==> Char(v + 1) as int == Char(v) as int + 1
  {
  }

  /** Of a 24-bit group, the letter of its `k`-th six bits. */
  function LetterOf(group: nat, k: nat): char
    requires k < 4
  {
    match k
    case 0 => Char(group / 262144 % 64)
    case 1 => Char(group / 4096 % 64)
    case 2 => Char(group / 64 % 64)
    case _ => Char(group % 64)
  }

  lemma Divides64(q: nat, r: nat)
    requires r < 64
    ensures (64 * q + r) / 64 == q && (64 * q + r) % 64 == r
  {
  }

  lemma Divides4096(q: nat, r: nat)
    requires r < 4096
    ensures (4096 * q + r) / 4096 == q
  {
  }

  lemma Divides262144(q: nat, r: nat)
    requires r < 262144
    ensures (262144 * q + r) / 262144 == q
  {
  }

  /** Three bytes given by their parts. */
  lemma GroupSextets(a: nat, r: nat, b: nat, s: nat, c: nat, t: nat)
    requires a < 64 && r < 4 && b < 16 && s < 16 && c < 4 && t < 64
    ensures var g := 65536 * (4 * a + r) + 256 * (16 * b + s) + (64 * c + t);
      g / 262144 % 64 == a && g / 4096 % 64 == r * 16 + b && g / 64 % 64 == s * 4 + c && g % 64 == t
  {
    Divides64(4096 * a + 1024 * r + 64 * b + 4 * s + c, t);
    Divides64(64 * a + 16 * r + b, 4 * s + c);
    Divides4096(64 * a + 16 * r + b, 256 * s + 64 * c + t);
    Divides64(a, 16 * r + b);
    Divides262144(a, 65536 * r + 4096 * b + 256 * s + 64 * c + t);
  }

  function GroupOf(x: byte, y: byte, z: byte): nat { 65536 * (x as nat) + 256 * (y as nat) + (z as nat) }

  lemma GroupLetters(x: byte, y: byte, z: byte)
    ensures var g := GroupOf(x, y, z);
      && LetterOf(g, 0) == Char(Bits0(x)) && LetterOf(g, 1) == Char(Bits1(x, y))
      && LetterOf(g, 2) == Char(Bits2(y, z)) && LetterOf(g, 3) == Char(Bits3(z))
  {
    hide Char;
    GroupSextets(x / 4, x % 4, y / 16, y % 16, z / 64, z % 64);
  }

  lemma OneByte(bs: seq<byte>)
    requires |bs| == 1
    ensures var g := GroupOf(bs[0], 0, 0); Encode(bs) == [LetterOf(g, 0), LetterOf(g, 1), '=', '=']
  {
    hide Char, LetterOf, GroupOf, Bits0, Bits1, Bits2, Bits3;
    GroupLetters(bs[0], 0, 0);
  }

  lemma TwoBytes(bs: seq<byte>)
    requires |bs| == 2
    ensures var g := GroupOf(bs[0], bs[1], 0); Encode(bs) == [LetterOf(g, 0), LetterOf(g, 1), LetterOf(g, 2), '=']
  {
    hide Char, LetterOf, GroupOf, Bits0, Bits1, Bits2, Bits3;
    GroupLetters(bs[0], bs[1], 0);
  }

  lemma ThreeBytes(bs: seq<byte>)
    requires |bs| >= 3
    ensures var g := GroupOf(bs[0], bs[1], bs[2]);
      Encode(bs) == [LetterOf(g, 0), LetterOf(g, 1), LetterOf(g, 2), LetterOf(g, 3)] + Encode(bs[3..])
  {
    hide Char, LetterOf, GroupOf, Bits0, Bits1, Bits2, Bits3;
    GroupLetters(bs[0], bs[1], bs[2]);
  }

  /** Three bytes at a time make a group of 24 bits, written as four letters of the alphabet, most significant
      first; a last group of one or two bytes is filled up with zeros, and = stands for each missing byte. */
  lemma EncodesGroups(bs: seq<byte>)
    requires bs != []
    ensures var g := GroupOf(bs[0], if |bs| > 1 then bs[1] else 0, if |bs| > 2 then bs[2] else 0);
      Encode(bs) == [LetterOf(g, 0), LetterOf(g, 1), if |bs| > 1 then LetterOf(g, 2) else '=',
                     if |bs| > 2 then LetterOf(g, 3) else '='] + (if |bs| > 3 then Encode(bs[3..]) else "")
  {
    hide Encode, LetterOf, GroupOf;
    if |bs| == 1 {
      OneByte(bs);
    } else if |bs| == 2 {
      TwoBytes(bs);
    } else {
      ThreeBytes(bs);
      EncodeNothing();
      if |bs| == 3 { assert bs[3..] == []; }
    }
  }

  lemma EncodeNothing()
    ensures Encode([]) == ""
  {
  }
}
