/** The event list: the filter a request gets, the SQL text built from it, and what that text means. */
module EventQuery {
  import opened Types
  import opened Text

  datatype Filter = Filter(
    owner: string, launcherEmail: string, status: string, task: string, from: Option<int>, to: Option<int>)

  /** The columns a filter looks at. */
  datatype Row = Row(owner: string, launcherEmail: string, status: string, task: string, createdAt: int)

  // ---------- the handlers' filters ----------

  /** The query parameters; a time that does not parse is absent. */
  datatype Params = Params(launcherEmail: string, status: string, task: string, from: Option<int>, to: Option<int>)

  method ListFilter(user: string, admin: bool, q: Params) returns (f: Filter)
    ensures !admin ==> f == Filter(user, "", "", "", None, None)
    ensures admin ==> f == Filter("", q.launcherEmail, q.status, q.task, q.from, q.to)
  {
    f := Filter("", "", "", "", None, None);
    if !admin {
      f := f.(owner := user);
    } else {
      f := f.(launcherEmail := q.launcherEmail);
      if q.status != "" { f := f.(status := q.status); }
      if q.task != "" { f := f.(task := q.task); }
      if q.from.Some? { f := f.(from := q.from); }
      if q.to.Some? { f := f.(to := q.to); }
    }
  }

  // ---------- ILIKE ----------

  predicate Special(c: char) { c == '%' || c == '_' || c == '\\' }

  predicate Plain(s: string) { forall c | c in s :: !Special(c) }

  /** SQL's LIKE: % is any text, _ any one character, a backslash takes the next character literally. */
  predicate Like(p: string, t: string)
    decreases |p|, |t|
  {
    if p == "" then t == ""
    else if p[0] == '%' then Like(p[1..], t) || (t != "" && Like(p, t[1..]))
    else if p[0] == '\\' then |p| > 1 && t != "" && p[1] == t[0] && Like(p[2..], t[1..])
    else t != "" && (p[0] == '_' || p[0] == t[0]) && Like(p[1..], t[1..])
  }

  function Lower(s: string): (r: string)
    ensures |r| == |s|
    ensures forall k | 0 <= k < |s| :: r[k] == LowerChar(s[k])
  {
    if s == "" then "" else [LowerChar(s[0])] + Lower(s[1..])
  }

  function LowerChar(c: char): char {
    if 'A' <= c <= 'Z' then (c as int + 32) as char else c
  }

  predicate ILike(pattern: string, t: string) { Like(Lower(pattern), Lower(t)) }

  /** `t` contains `s`, letter case aside. */
  ghost predicate Contains(t: string, s: string) {
    exists k | 0 <= k <= |t| :: Lower(s) <= Lower(t)[k..]
  }

  function Around(s: string): string { "%" + s + "%" }

  lemma {:induction false} PlainPrefix(s: string, t: string)
    requires Plain(s)
    ensures Like(s + "%", t) <==> s <= t
  {
    if s == "" {
      AnyText(t);
      assert s + "%" == "%";
    } else {
      assert (s + "%")[0] == s[0] && s[0] in s && (s + "%")[1..] == s[1..] + "%";
      if t != "" {
        assert forall c | c in s[1..] :: c in s;
        PlainPrefix(s[1..], t[1..]);
        assert s <= t <==> s[0] == t[0] && s[1..] <= t[1..] by {
          if s[0] == t[0] && s[1..] <= t[1..] { assert s == [s[0]] + s[1..] && t == [t[0]] + t[1..]; }
        }
      }
    }
  }

  lemma {:induction false} AnyText(t: string)
    ensures Like("%", t)
  {
    if t != "" { AnyText(t[1..]); }
    assert "%"[1..] == "";
  }

  lemma {:induction false} PlainWithin(s: string, t: string)
    requires Plain(s)
    ensures Like(Around(s), t) <==> exists k | 0 <= k <= |t| :: s <= t[k..]
  {
    assert Around(s)[0] == '%' && Around(s)[1..] == s + "%";
    PlainPrefix(s, t);
    assert t[0..] == t;
    if t == "" {
    } else {
      PlainWithin(s, t[1..]);
      if Like(Around(s), t[1..]) {
        var k :| 0 <= k <= |t[1..]| && s <= t[1..][k..];
        assert t[1..][k..] == t[k + 1..];
      }
      if k :| 0 < k <= |t| && s <= t[k..] {
        assert t[1..][k - 1..] == t[k..];
      }
    }
  }

  // ---------- when ILIKE is not containment ----------

  /** The shortest text a pattern matches, with x for any one character. */
  function Least(p: string): string
    decreases |p|
  {
    if p == "" then ""
    else if p[0] == '%' then Least(p[1..])
    else if p[0] == '\\' then (if |p| > 1 then [p[1]] + Least(p[2..]) else "")
    else [if p[0] == '_' then 'x' else p[0]] + Least(p[1..])
  }

  predicate LowerCase(s: string) { forall c | c in s :: LowerChar(c) == c }

  /** Of a pattern `s` followed by %: it is matched, no longer than `s`, and lower-case if `s` is. */
  lemma {:induction false} LeastMatches(s: string)
    ensures var t := Least(s + "%");
      Like(s + "%", t) && |t| <= |s| && (LowerCase(s) ==> LowerCase(t))
    decreases |s|
  {
    var p := s + "%";
    if s == "" {
      assert p == "%" && p[1..] == "";
    } else if s[0] == '\\' {
      if |s| == 1 {
        assert p[1] == '%' && p[2..] == "";
      } else {
        assert p[2..] == s[2..] + "%" && p[1] == s[1];
        LeastMatches(s[2..]);
      }
    } else {
      assert p[1..] == s[1..] + "%" && p[0] == s[0];
      LeastMatches(s[1..]);
    }
  }

  /** A text with a special character is not the shortest text it matches as a pattern. */
  lemma {:induction false} LeastDiffers(s: string)
    requires !Plain(s)
    ensures Least(s + "%") != s
  {
    var p := s + "%";
    assert p[0] == s[0];
    if s[0] == '\\' {
      if |s| == 1 {
        assert p[1] == '%' && p[2..] == "";
      } else {
        assert p[2..] == s[2..] + "%";
        LeastMatches(s[2..]);
      }
    } else {
      assert p[1..] == s[1..] + "%" && s == [s[0]] + s[1..];
      LeastMatches(s[1..]);
      if !Special(s[0]) { LeastDiffers(s[1..]); }
    }
  }

  lemma LowerTwice(c: char)
    ensures LowerChar(LowerChar(c)) == LowerChar(c) && (Special(LowerChar(c)) <==> Special(c))
  {
  }

  lemma LowerIsLower(s: string)
    ensures LowerCase(Lower(s)) && (Plain(Lower(s)) <==> Plain(s))
  {
    hide Lower, LowerChar, Special;
    var l := Lower(s);
    forall c | c in l ensures LowerChar(c) == c {
      var k :| 0 <= k < |l| && l[k] == c;
      LowerTwice(s[k]);
    }
    forall k | 0 <= k < |s| ensures Special(l[k]) <==> Special(s[k]) { LowerTwice(s[k]); }
    assert Plain(s) ==> forall c | c in l :: !Special(c) by {
      forall c | c in l && Plain(s) ensures !Special(c) {
        var k :| 0 <= k < |l| && l[k] == c;
        assert s[k] in s;
      }
    }
    if c :| c in s && Special(c) {
      var k :| 0 <= k < |s| && s[k] == c;
      assert l[k] in l;
    }
  }

  lemma LowerCaseStays(s: string)
    requires LowerCase(s)
    ensures Lower(s) == s
  {
    hide LowerChar;
    forall k | 0 <= k < |s| ensures Lower(s)[k] == s[k] { assert s[k] in s; }
  }

  lemma LowerAround(s: string)
    ensures Lower(Around(s)) == Around(Lower(s))
  {
    assert forall k | 0 <= k < |s| :: Around(s)[k + 1] == s[k] && Around(Lower(s))[k + 1] == Lower(s)[k];
  }

  /** Exactly for which search texts the list's `%s%` means containment, letter case aside: those without
      %, _ and backslash. */
  lemma ContainmentExactly(s: string)
    ensures (forall t: string :: ILike(Around(s), t) <==> Contains(t, s)) <==> Plain(s)
  {
    hide Like, Least, Lower;
    LowerIsLower(s);
    LowerAround(s);
    var l := Lower(s);
    if Plain(s) {
      forall t: string ensures ILike(Around(s), t) <==> Contains(t, s) { PlainWithin(l, Lower(t)); }
    } else {
      var t := Least(l + "%");
      LeastMatches(l);
      LeastDiffers(l);
      LowerCaseStays(t);
      StartsAnywhere(l, t);
      assert t[0..] == t;
      assert !Contains(t, s);
    }
  }

  lemma StartsAnywhere(s: string, t: string)
    requires Like(s + "%", t)
    ensures Like(Around(s), t)
  {
    assert Around(s)[0] == '%' && Around(s)[1..] == s + "%";
  }

  // ---------- the built query ----------

  datatype Arg = TextArg(text: string) | TimeArg(time: int)

  /** One clause of the WHERE part: a column, an operator and the number of a placeholder. */
  datatype Clause = Clause(column: string, op: string, index: nat)

  /** The columns of the select list, in order. */
  const NAMES: seq<string> := [
    "id", "owner_id", "name", "launcher_name", "launcher_email", "task_type", "config_content", "config_checksum",
    "status", "related_event_id", "rollback_scope", "total_jobs", "verified_count", "failed_count", "created_at"]

  /** Names with commas between. */
  function Listed(names: seq<string>): string {
    if names == [] then ""
    else if |names| == 1 then names[0]
    else names[0] + ", " + Listed(names[1..])
  }

  const SELECT := "SELECT "
  const FROM := " FROM events WHERE 1=1"

  function Head(): string { SELECT + Listed(NAMES) + FROM }

  const TAIL := " ORDER BY created_at DESC"

  function Condition(column: string, op: string): string { " AND " + column + " " + op + " " }

  function Where(cs: seq<Clause>): string {
    if cs == [] then ""
    else
      var c := cs[|cs| - 1];
      Where(cs[..|cs| - 1]) + (Condition(c.column, c.op) + "$" + Decimal(c.index))
  }

  /** The query's text and its arguments, one clause at a time. */
  datatype Query = Query(clauses: seq<Clause>, args: seq<Arg>) {
    function Started(): string { Head() + Where(clauses) }

    function Text(): string { Started() + TAIL }

    function And(column: string, op: string, arg: Arg): Query {
      Query(clauses + [Clause(column, op, |args| + 1)], args + [arg])
    }

    ghost predicate Selects(row: Row) { AllHold(clauses, args, row) }
  }

  datatype Cell = TextCell(text: string) | TimeCell(time: int)

  /** What a row has in a column, of those a filter looks at. */
  function CellOf(row: Row, column: string): Option<Cell> {
    if column == "owner_id" then Some(TextCell(row.owner))
    else if column == "launcher_email" then Some(TextCell(row.launcherEmail))
    else if column == "status" then Some(TextCell(row.status))
    else if column == "task_type" then Some(TextCell(row.task))
    else if column == "created_at" then Some(TimeCell(row.createdAt))
    else None
  }

  /** SQL's comparison of a column's value with an argument. */
  predicate Compare(cell: Cell, op: string, arg: Arg) {
    match (cell, arg)
    case (TextCell(v), TextArg(s)) => (op == "=" && v == s) || (op == "ILIKE" && ILike(s, v))
    case (TimeCell(v), TimeArg(t)) =>
      (op == "=" && v == t) || (op == ">=" && v >= t) || (op == "<=" && v <= t) || (op == ">" && v > t)
      || (op == "<" && v < t)
    case _ => false
  }

  /** A clause on one row, its placeholder standing for the argument of its number. */
  predicate Holds(c: Clause, args: seq<Arg>, row: Row) {
    1 <= c.index <= |args| && CellOf(row, c.column).Some?
    && Compare(CellOf(row, c.column).value, c.op, args[c.index - 1])
  }

  ghost predicate AllHold(cs: seq<Clause>, args: seq<Arg>, row: Row) {
    forall c | c in cs :: Holds(c, args, row)
  }

  function Built(f: Filter): Query {
    var q := Query([], []);
    var q := if f.owner != "" then q.And("owner_id", "=", TextArg(f.owner)) else q;
    var q := if f.launcherEmail != "" then q.And("launcher_email", "ILIKE", TextArg(Around(f.launcherEmail))) else q;
    var q := if f.status != "" then q.And("status", "=", TextArg(f.status)) else q;
    var q := if f.task != "" then q.And("task_type", "=", TextArg(f.task)) else q;
    var q := if f.from.Some? then q.And("created_at", ">=", TimeArg(f.from.value)) else q;
    if f.to.Some? then q.And("created_at", "<=", TimeArg(f.to.value)) else q
  }

  lemma StartedAnd(q: Query, column: string, op: string, arg: Arg)
    ensures q.And(column, op, arg).Started() == q.Started() + (Condition(column, op) + "$" + Decimal(|q.args| + 1))
  {
    hide Condition, Decimal, Head;
    var cs := q.And(column, op, arg).clauses;
    assert cs[..|cs| - 1] == q.clauses;
    Regroup(Head(), Where(q.clauses), Condition(column, op) + "$" + Decimal(|q.args| + 1));
  }

  lemma Regroup(a: string, b: string, c: string)
    ensures a + b + c == a + (b + c)
  {
  }

  lemma NothingStarted()
    ensures Query([], []).Started() == Head()
  {
    hide Head;
    assert Where([]) == "";
  }

  // ---------- what it means ----------

  /** A name or operator that can be told from what stands around it. */
  predicate Word(s: string) { s != "" && Without(s, ' ') && Without(s, '$') && Without(s, ',') }

  /** Clause number k has placeholder k, there is one argument for each, and all of it can be read back. */
  ghost predicate Numbered(q: Query) {
    && |q.clauses| == |q.args|
    && forall k | 0 <= k < |q.clauses| ::
         q.clauses[k].index == k + 1 && Word(q.clauses[k].column) && Word(q.clauses[k].op)
  }

  lemma AndSelects(q: Query, column: string, op: string, arg: Arg, row: Row)
    requires Numbered(q) && Word(column) && Word(op)
    ensures Numbered(q.And(column, op, arg))
    ensures q.And(column, op, arg).Selects(row) <==> q.Selects(row) && Holds(Clause(column, op, 1), [arg], row)
  {
    hide Compare, CellOf, Word;
    var q' := q.And(column, op, arg);
    forall c | c in q.clauses ensures 1 <= c.index <= |q.args| && q'.args[c.index - 1] == q.args[c.index - 1] {
      var k :| 0 <= k < |q.clauses| && q.clauses[k] == c;
    }
    assert q'.clauses[|q.clauses|] in q'.clauses;
    assert forall c | c in q.clauses :: c in q'.clauses;
  }

  /** Every field that is set holds of the row. */
  ghost predicate Satisfies(f: Filter, row: Row) {
    && (f.owner != "" ==> row.owner == f.owner)
    && (f.launcherEmail != "" ==> ILike(Around(f.launcherEmail), row.launcherEmail))
    && (f.status != "" ==> row.status == f.status)
    && (f.task != "" ==> row.task == f.task)
    && (f.from.Some? ==> f.from.value <= row.createdAt)
    && (f.to.Some? ==> row.createdAt <= f.to.value)
  }

  /** One filter field adds its comparison when it is set and nothing otherwise. */
  lemma Field(q: Query, given: bool, column: string, op: string, arg: Arg, row: Row)
    requires Numbered(q) && Word(column) && Word(op)
    ensures var q' := if given then q.And(column, op, arg) else q;
      Numbered(q') && (q'.Selects(row) <==> q.Selects(row) && (given ==> Holds(Clause(column, op, 1), [arg], row)))
  {
    hide Holds, Query.Selects, Word;
    if given { AndSelects(q, column, op, arg, row); }
  }

  lemma OpsAreWords()
    ensures Word("=") && Word("ILIKE") && Word(">=") && Word("<=")
  {
  }

  predicate Name(s: string) { s != "" && forall c | c in s :: 'a' <= c <= 'z' || c == '_' }

  lemma NameIsWord(s: string)
    requires Name(s)
    ensures Word(s)
  {
  }

  lemma FirstNames()
    ensures Name("id") && Name("owner_id") && Name("name") && Name("launcher_name") && Name("launcher_email")
  {
  }

  lemma MiddleNames()
    ensures Name("task_type") && Name("config_content") && Name("config_checksum") && Name("status")
            && Name("related_event_id")
  {
  }

  lemma LastNames()
    ensures Name("rollback_scope") && Name("total_jobs") && Name("verified_count") && Name("failed_count")
            && Name("created_at")
  {
  }

  lemma NamesAreWords()
    ensures forall n | n in NAMES :: Word(n)
  {
    hide Word, Name;
    FirstNames();
    MiddleNames();
    LastNames();
    forall n | n in NAMES ensures Word(n) { NameIsWord(n); }
  }

  lemma FilterColumns()
    ensures Word("owner_id") && Word("launcher_email") && Word("status") && Word("task_type") && Word("created_at")
  {
    hide Word;
    NamesAreWords();
    assert NAMES[1] in NAMES && NAMES[4] in NAMES && NAMES[5] in NAMES && NAMES[8] in NAMES && NAMES[14] in NAMES;
  }

  /** The built query selects exactly the rows that satisfy every set field. */
  lemma QueryMeansFilter(f: Filter, row: Row)
    ensures Numbered(Built(f)) && (Built(f).Selects(row) <==> Satisfies(f, row))
  {
    hide ILike, Numbered, Query.Selects, Around, Word, Query.And;
    OpsAreWords();
    FilterColumns();
    var q0 := Query([], []);
    NoClauses(row);
    Field(q0, f.owner != "", "owner_id", "=", TextArg(f.owner), row);
    var q1 := if f.owner != "" then q0.And("owner_id", "=", TextArg(f.owner)) else q0;
    Field(q1, f.launcherEmail != "", "launcher_email", "ILIKE", TextArg(Around(f.launcherEmail)), row);
    var q2 := if f.launcherEmail != "" then q1.And("launcher_email", "ILIKE", TextArg(Around(f.launcherEmail))) else q1;
    Field(q2, f.status != "", "status", "=", TextArg(f.status), row);
    var q3 := if f.status != "" then q2.And("status", "=", TextArg(f.status)) else q2;
    Field(q3, f.task != "", "task_type", "=", TextArg(f.task), row);
    var q4 := if f.task != "" then q3.And("task_type", "=", TextArg(f.task)) else q3;
    var q5 := if f.from.Some? then q4.And("created_at", ">=", TimeArg(f.from.value)) else q4;
    if f.from.Some? { Field(q4, true, "created_at", ">=", TimeArg(f.from.value), row); }
    if f.to.Some? { Field(q5, true, "created_at", "<=", TimeArg(f.to.value), row); }
  }

  lemma NoClauses(row: Row)
    ensures Numbered(Query([], [])) && Query([], []).Selects(row)
  {
  }

  lemma NoDollar(c: Clause)
    requires Word(c.column) && Word(c.op)
    ensures Without(Condition(c.column, c.op), '$') && Condition(c.column, c.op)[0] == ' '
  {
  }

  lemma {:induction false} WherePlaceholders(q: Query, k: nat, rest: string)
    requires Numbered(q) && k <= |q.clauses| && (rest == "" || !IsDigit(rest[0]))
    ensures Placeholders(Where(q.clauses[..k]) + rest) == seq(k, i => i + 1) + Placeholders(rest)
  {
    hide Placeholders, Condition, Decimal;
    if k == 0 {
      assert Where(q.clauses[..0]) + rest == rest;
    } else {
      var c := q.clauses[k - 1];
      var mark := "$" + Decimal(c.index) + rest;
      var more := Condition(c.column, c.op) + mark;
      NoDollar(c);
      assert q.clauses[..k][..k - 1] == q.clauses[..k - 1];
      assert Where(q.clauses[..k]) + rest == Where(q.clauses[..k - 1]) + more;
      WherePlaceholders(q, k - 1, more);
      NoPlaceholder(Condition(c.column, c.op), mark);
      OnePlaceholder(c.index, rest);
    }
  }

  lemma {:induction false} ListedNoDollar(names: seq<string>)
    requires forall n | n in names :: Word(n)
    ensures Without(Listed(names), '$')
  {
    if |names| > 1 {
      ListedNoDollar(names[1..]);
      assert names[0] in names;
    } else if |names| == 1 {
      assert names[0] in names;
    }
  }

  lemma NoDollarInHead()
    ensures Without(Head(), '$')
  {
    hide Listed, Word;
    NamesAreWords();
    ListedNoDollar(NAMES);
  }

  /** The placeholders of the whole text are exactly $1, $2, ... up to the number of arguments, in this order. */
  lemma PlaceholdersInOrder(f: Filter)
    ensures Placeholders(Built(f).Text()) == seq(|Built(f).args|, i => i + 1)
  {
    hide Placeholders, Where, Built, Head;
    var q := Built(f);
    QueryMeansFilter(f, Row("", "", "", "", 0));
    WherePlaceholders(q, |q.clauses|, TAIL);
    assert q.clauses[..|q.clauses|] == q.clauses;
    NoDollarInHead();
    Regroup(Head(), Where(q.clauses), TAIL);
    NoPlaceholder(Head(), Where(q.clauses) + TAIL);
    NoPlaceholder(TAIL, "");
    assert TAIL + "" == TAIL;
    NothingPlaced();
  }

  lemma NothingPlaced()
    ensures Placeholders("") == []
  {
  }

  // ---------- the text read back ----------

  /** What a reader makes of the text: a select list, a table, conditions joined by AND, and the column by
      which rows are ordered, latest first. */
  datatype Statement = Statement(columns: seq<string>, table: string, conditions: seq<Clause>, latestBy: string)

  /** Names up to the first without a comma behind it, and the rest. */
  function ReadColumns(ts: seq<string>): Option<(seq<string>, seq<string>)> {
    if ts == [] || ts[0] == "" then None
    else if ts[0][|ts[0]| - 1] != ',' then Some(([ts[0]], ts[1..]))
    else
      var more := ReadColumns(ts[1..]);
      if more.None? then None else Some(([ts[0][..|ts[0]| - 1]] + more.value.0, more.value.1))
  }

  predicate Placeholder(t: string) { |t| > 1 && t[0] == '$' && forall c | c in t[1..] :: IsDigit(c) }

  /** AND, a column, an operator and a placeholder, as often as they come, and the rest. */
  function ReadConditions(ts: seq<string>): Option<(seq<Clause>, seq<string>)> {
    if ts == [] || ts[0] != "AND" then Some(([], ts))
    else if |ts| < 4 || !Placeholder(ts[3]) then None
    else
      var more := ReadConditions(ts[4..]);
      if more.None? then None
      else Some(([Clause(ts[1], ts[2], Value(ts[3][1..]))] + more.value.0, more.value.1))
  }

  function ReadFrom(columns: seq<string>, ts: seq<string>): Option<Statement> {
    if |ts| < 4 || ts[0] != "FROM" || ts[2] != "WHERE" || ts[3] != "1=1" then None
    else
      var more := ReadConditions(ts[4..]);
      if more.None? then None
      else
        var o := more.value.1;
        if |o| != 4 || o[0] != "ORDER" || o[1] != "BY" || o[3] != "DESC" then None
        else Some(Statement(columns, ts[1], more.value.0, o[2]))
  }

  function Read(text: string): Option<Statement> {
    var ts := Split(text, ' ');
    if ts[0] != "SELECT" then None
    else
      var more := ReadColumns(ts[1..]);
      if more.None? then None else ReadFrom(more.value.0, more.value.1)
  }

  function Commas(names: seq<string>): seq<string> {
    if |names| <= 1 then names else [names[0] + ","] + Commas(names[1..])
  }

  lemma {:induction false} SplitListed(names: seq<string>)
    requires names != [] && forall n | n in names :: Word(n)
    ensures Split(Listed(names), ' ') == Commas(names)
  {
    hide Split;
    var first := names[0];
    assert first in names;
    if |names| == 1 {
      SplitOne(first, ' ');
      assert names == [first];
    } else {
      var rest := Listed(names[1..]);
      SplitListed(names[1..]);
      assert Without(first + ",", ' ');
      SplitAt(first + ",", ' ', rest);
      assert first + ", " + rest == first + "," + [' '] + rest;
    }
  }

  lemma {:induction false} CommasReadBack(names: seq<string>, rest: seq<string>)
    requires names != [] && forall n | n in names :: Word(n)
    ensures ReadColumns(Commas(names) + rest) == Some((names, rest))
  {
    var first := names[0];
    assert first in names && first[|first| - 1] in first;
    var ts := Commas(names) + rest;
    if |names| == 1 {
      assert ts[0] == first && ts[1..] == rest && names == [first];
    } else {
      CommasReadBack(names[1..], rest);
      assert ts[0] == first + "," && ts[1..] == Commas(names[1..]) + rest;
      assert ts[0][..|ts[0]| - 1] == first && names == [first] + names[1..];
    }
  }

  function Tokens(c: Clause): seq<string> { ["AND", c.column, c.op, "$" + Decimal(c.index)] }

  function AllTokens(cs: seq<Clause>): seq<string> {
    if cs == [] then [] else AllTokens(cs[..|cs| - 1]) + Tokens(cs[|cs| - 1])
  }

  lemma FourWords(a: string, b: string, c: string, d: string)
    requires Without(a, ' ') && Without(b, ' ') && Without(c, ' ') && Without(d, ' ')
    ensures Split(a + " " + b + " " + c + " " + d, ' ') == [a, b, c, d]
  {
    hide Split;
    SplitOne(d, ' ');
    SplitAt(c, ' ', d);
    SplitAt(b, ' ', c + [' '] + d);
    SplitAt(a, ' ', b + [' '] + (c + [' '] + d));
    assert a + " " + b + " " + c + " " + d == a + [' '] + (b + [' '] + (c + [' '] + d));
  }

  lemma SplitClause(c: Clause)
    requires Word(c.column) && Word(c.op)
    ensures Split("AND " + c.column + " " + c.op + " " + ("$" + Decimal(c.index)), ' ') == Tokens(c)
  {
    hide Split, Decimal;
    var mark := "$" + Decimal(c.index);
    assert Without(mark, ' ') && Without("AND", ' ');
    FourWords("AND", c.column, c.op, mark);
    assert "AND " + c.column == "AND" + " " + c.column;
  }

  lemma {:induction false} SplitWhere(head: string, cs: seq<Clause>)
    requires forall c | c in cs :: Word(c.column) && Word(c.op)
    ensures Split(head + Where(cs), ' ') == Split(head, ' ') + AllTokens(cs)
  {
    hide Split, Decimal, Word;
    if cs == [] {
      assert head + Where(cs) == head && Split(head, ' ') + [] == Split(head, ' ');
    } else {
      var before, c := cs[..|cs| - 1], cs[|cs| - 1];
      assert c in cs;
      SplitWhere(head, before);
      SplitClause(c);
      var clause := "AND " + c.column + " " + c.op + " " + ("$" + Decimal(c.index));
      SplitBoth(head + Where(before), ' ', clause);
      assert head + Where(cs) == head + Where(before) + [' '] + clause by {
        assert Condition(c.column, c.op) + "$" + Decimal(c.index) == [' '] + clause;
      }
    }
  }

  lemma {:induction false} TokensReadBack(cs: seq<Clause>, rest: seq<string>)
    requires ReadConditions(rest).Some?
    ensures ReadConditions(AllTokens(cs) + rest) ==
            Some((cs + ReadConditions(rest).value.0, ReadConditions(rest).value.1))
  {
    hide Decimal, Value, ReadConditions;
    if cs == [] {
      assert AllTokens(cs) + rest == rest && cs + ReadConditions(rest).value.0 == ReadConditions(rest).value.0;
    } else {
      var before, c := cs[..|cs| - 1], cs[|cs| - 1];
      OneReadBack(c, rest);
      TokensReadBack(before, Tokens(c) + rest);
      assert AllTokens(cs) + rest == AllTokens(before) + (Tokens(c) + rest);
      assert before + ([c] + ReadConditions(rest).value.0) == cs + ReadConditions(rest).value.0;
    }
  }

  lemma OneReadBack(c: Clause, rest: seq<string>)
    requires ReadConditions(rest).Some?
    ensures ReadConditions(Tokens(c) + rest) ==
            Some(([c] + ReadConditions(rest).value.0, ReadConditions(rest).value.1))
  {
    hide Decimal, Value;
    DecimalValue(c.index);
    var ts := Tokens(c) + rest;
    assert ts[0] == "AND" && ts[1] == c.column && ts[2] == c.op && ts[3] == "$" + Decimal(c.index) && ts[4..] == rest;
    assert ts[3][1..] == Decimal(c.index);
  }

  lemma SplitHead()
    ensures Split(Head(), ' ') == ["SELECT"] + Commas(NAMES) + ["FROM", "events", "WHERE", "1=1"]
  {
    hide Split, Listed, Commas, Word;
    NamesAreWords();
    SplitListed(NAMES);
    SplitFrom();
    SplitBoth(Listed(NAMES), ' ', "FROM events WHERE 1=1");
    assert Without("SELECT", ' ');
    SplitAt("SELECT", ' ', Listed(NAMES) + [' '] + "FROM events WHERE 1=1");
    assert Head() == "SELECT" + [' '] + (Listed(NAMES) + [' '] + "FROM events WHERE 1=1");
  }

  lemma SplitFrom()
    ensures Split("FROM events WHERE 1=1", ' ') == ["FROM", "events", "WHERE", "1=1"]
  {
    hide Split;
    FourWords("FROM", "events", "WHERE", "1=1");
    assert "FROM events WHERE 1=1" == "FROM" + " " + "events" + " " + "WHERE" + " " + "1=1";
  }

  lemma SplitOrder()
    ensures Split("ORDER BY created_at DESC", ' ') == ["ORDER", "BY", "created_at", "DESC"]
  {
    hide Split;
    FourWords("ORDER", "BY", "created_at", "DESC");
    assert "ORDER BY created_at DESC" == "ORDER" + " " + "BY" + " " + "created_at" + " " + "DESC";
  }

  /** The text of a query, read word by word, gives back its select list and exactly its clauses. */
  lemma TextReadBack(q: Query)
    requires Numbered(q)
    ensures Read(q.Text()) == Some(Statement(NAMES, "events", q.clauses, "created_at"))
  {
    hide Split, Head, Where, Commas, AllTokens, ReadColumns, ReadConditions, Word;
    var end := ["ORDER", "BY", "created_at", "DESC"];
    var from := ["FROM", "events", "WHERE", "1=1"];
    forall c | c in q.clauses ensures Word(c.column) && Word(c.op) {
      var k :| 0 <= k < |q.clauses| && q.clauses[k] == c;
    }
    SplitHead();
    SplitWhere(Head(), q.clauses);
    SplitOrder();
    SplitBoth(q.Started(), ' ', "ORDER BY created_at DESC");
    assert q.Text() == q.Started() + [' '] + "ORDER BY created_at DESC";
    var rest := from + AllTokens(q.clauses) + end;
    var ts := ["SELECT"] + (Commas(NAMES) + rest);
    assert Split(q.Text(), ' ') == ts && ts[0] == "SELECT" && ts[1..] == Commas(NAMES) + rest;
    NamesAreWords();
    CommasReadBack(NAMES, rest);
    EndReadBack(end);
    TokensReadBack(q.clauses, end);
    assert rest[4..] == AllTokens(q.clauses) + end && q.clauses + [] == q.clauses;
  }

  lemma EndReadBack(end: seq<string>)
    requires end == ["ORDER", "BY", "created_at", "DESC"]
    ensures ReadConditions(end) == Some(([], end))
  {
  }

  /** The text and arguments of ListEvents' query, as a reader of SQL understands them: these columns, from the
      events table, of exactly the rows that satisfy the filter, the latest first. */
  ghost predicate Asks(text: string, args: seq<Arg>, f: Filter) {
    Read(text).Some? &&
    var q := Read(text).value;
    && q.columns == ["id", "owner_id", "name", "launcher_name", "launcher_email", "task_type", "config_content",
                     "config_checksum", "status", "related_event_id", "rollback_scope", "total_jobs",
                     "verified_count", "failed_count", "created_at"]
    && q.table == "events" && q.latestBy == "created_at"
    && forall row :: AllHold(q.conditions, args, row) <==> Satisfies(f, row)
  }

  lemma BuiltAsks(f: Filter)
    ensures Asks(Built(f).Text(), Built(f).args, f)
  {
    hide Built, Query.Text, Read, AllHold, Satisfies, Numbered;
    var q := Built(f);
    QueryMeansFilter(f, Row("", "", "", "", 0));
    TextReadBack(q);
    forall row ensures AllHold(q.clauses, q.args, row) <==> Satisfies(f, row) { QueryMeansFilter(f, row); }
  }

  /** ListEvents' builder, argument slice and counter. */
  method ListEvents(f: Filter) returns (text: string, args: seq<Arg>)
    ensures text == Built(f).Text() && args == Built(f).args
    ensures Asks(text, args, f)
  {
    hide Query.Started, Head, Asks;
    BuiltAsks(f);
    NothingStarted();
    text, args := Head(), [];
    var n := 1;
    ghost var q := Query([], []);
    if f.owner != "" { text, args, n, q := Append(text, args, n, "owner_id", "=", TextArg(f.owner), q); }
    if f.launcherEmail != "" {
      text, args, n, q := Append(text, args, n, "launcher_email", "ILIKE", TextArg("%" + f.launcherEmail + "%"), q);
    }
    if f.status != "" { text, args, n, q := Append(text, args, n, "status", "=", TextArg(f.status), q); }
    if f.task != "" { text, args, n, q := Append(text, args, n, "task_type", "=", TextArg(f.task), q); }
    if f.from.Some? { text, args, n, q := Append(text, args, n, "created_at", ">=", TimeArg(f.from.value), q); }
    if f.to.Some? { text, args, n, q := Append(text, args, n, "created_at", "<=", TimeArg(f.to.value), q); }
    text := text + TAIL;
  }

  /** The three statements every filter field shares. */
  method Append(text: string, args: seq<Arg>, n: nat, column: string, op: string, arg: Arg, ghost q: Query)
    returns (text': string, args': seq<Arg>, n': nat, ghost q': Query)
    requires text == q.Started() && args == q.args && n == |args| + 1
    ensures q' == q.And(column, op, arg)
    ensures text' == q'.Started() && args' == q'.args && n' == |args'| + 1
  {
    hide Query.Started, Condition, Decimal;
    q' := q.And(column, op, arg);
    StartedAnd(q, column, op, arg);
    text' := text + (Condition(column, op) + "$" + Decimal(n));
    args' := args + [arg];
    n' := n + 1;
  }

  /** The list of a user who is not an administrator is exactly that user's events, unless the user id is
      empty: then it is everybody's. */
  lemma OwnEventsExactly(user: string)
    ensures (forall row :: Satisfies(Filter(user, "", "", "", None, None), row) <==> row.owner == user) <==> user != ""
  {
    var other := Row("x", "", "", "", 0);
    assert Satisfies(Filter("", "", "", "", None, None), other);
  }
}
