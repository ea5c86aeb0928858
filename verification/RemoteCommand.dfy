/** The shell command RunScript sends, and what a shell makes of it. */
module RemoteCommand {
  import opened Types
  import opened Text
  import opened Base64

  // ---------- the shell, as far as this command uses it ----------

  /** Does a failing line end the command? Further the directories there are, the files written and those made
      executable, and the words of the bash command that was run last. */
  datatype Remote = Remote(
    strict: bool, dirs: set<string>, files: map<string, seq<byte>>, executable: set<string>, ran: seq<string>)

  const START := Remote(false, {"/tmp"}, map[], {}, [])

  const SET := "set -e"
  const MKDIR := "mkdir -p "
  const CHMOD := "chmod +x "
  const ECHO := "echo '"
  const PIPE := " | base64 -d > "
  const BASH := "bash "

  /** The directory of a path. */
  function Parent(path: string): string {
    if path == "" then ""
    else
      var n := |path| - 1;
      if path[n] == '/' then path[..n] else Parent(path[..n])
  }

  /** echo of a quoted word, piped through base64 -d into a file; `rest` is what follows the first quote. */
  function RunEcho(r: Remote, rest: string): Option<Remote> {
    var parts := Split(rest, '\'');
    if |parts| != 2 || !(PIPE <= parts[1]) || Decode(parts[0]).None? then None
    else if Parent(parts[1][|PIPE|..]) !in r.dirs then None
    else Some(r.(files := r.files[parts[1][|PIPE|..] := Decode(parts[0]).value]))
  }

  /** bash of a file there is, with arguments. */
  function RunBash(r: Remote, words: seq<string>): Option<Remote> {
    if words != [] && words[0] in r.files then Some(r.(ran := words)) else None
  }

  /** One line; None is a line that fails. */
  function RunLine(r: Remote, line: string): Option<Remote> {
    if line == SET then Some(r.(strict := true))
    else if MKDIR <= line then Some(r.(dirs := r.dirs + {line[|MKDIR|..]}))
    else if CHMOD <= line then
      if line[|CHMOD|..] in r.files then Some(r.(executable := r.executable + {line[|CHMOD|..]})) else None
    else if ECHO <= line then RunEcho(r, line[|ECHO|..])
    else if BASH <= line then RunBash(r, Split(line[|BASH|..], ' '))
    else None
  }

  function RunLines(r: Remote, lines: seq<string>): Option<Remote>
    decreases |lines|
  {
    if lines == [] then Some(r)
    else
      var next := RunLine(r, lines[0]);
      if next.Some? then RunLines(next.value, lines[1..])
      else if r.strict then None
      else RunLines(r, lines[1..])
  }

  function Shell(command: string): Option<Remote> {
    RunLines(START, Split(command, '\n'))
  }

  // ---------- lines ----------

  lemma LineMkdir(r: Remote, dir: string)
    ensures RunLine(r, MKDIR + dir) == Some(r.(dirs := r.dirs + {dir}))
  {
    var line := MKDIR + dir;
    assert line[0] == 'm' && line[|MKDIR|..] == dir;
  }

  lemma LineChmod(r: Remote, file: string)
    requires file in r.files
    ensures RunLine(r, CHMOD + file) == Some(r.(executable := r.executable + {file}))
  {
    var line := CHMOD + file;
    assert line[0] == 'c' && line[|CHMOD|..] == file;
  }

  lemma LineBash(r: Remote, words: string)
    requires Split(words, ' ')[0] in r.files
    ensures RunLine(r, BASH + words) == Some(r.(ran := Split(words, ' ')))
  {
    var line := BASH + words;
    assert line[0] == 'b' && line[|BASH|..] == words;
  }

  lemma LineEcho(r: Remote, bs: seq<byte>, file: string)
    requires Without(file, '\'') && Parent(file) in r.dirs
    ensures RunLine(r, ECHO + (Encode(bs) + "'" + (PIPE + file))) == Some(r.(files := r.files[file := bs]))
  {
    hide Encode, Decode, Split;
    var rest := Encode(bs) + "'" + (PIPE + file);
    var line := ECHO + rest;
    assert line[0] == 'e' && line[|ECHO|..] == rest;
    RoundTrip(bs);
    Payload(bs);
    PipeClean(file);
    SplitAt(Encode(bs), '\'', PIPE + file);
    SplitOne(PIPE + file, '\'');
    assert (PIPE + file)[|PIPE|..] == file;
  }

  /** A quoted payload contains no quote, no line break and no space. */
  lemma Payload(bs: seq<byte>)
    ensures Without(Encode(bs), '\'') && Without(Encode(bs), '\n') && Without(Encode(bs), ' ')
  {
    hide Encode;
    OnlyLetters(bs);
  }

  lemma PipeClean(file: string)
    requires Without(file, '\'')
    ensures Without(PIPE + file, '\'')
  {
    assert '\'' !in PIPE;
  }

  // ---------- the command ----------

  const TMP := "/tmp/otelforge-"
  const SCRIPT := "/task.sh"
  const CONFIG := "/config.yaml"

  /** Lines with a line break between each two. */
  function Join(lines: seq<string>): string {
    if lines == [] then ""
    else if |lines| == 1 then lines[0]
    else Join(lines[..|lines| - 1]) + "\n" + lines[|lines| - 1]
  }

  lemma OneMoreLine(lines: seq<string>, line: string)
    requires lines != []
    ensures Join(lines + [line]) == Join(lines) + "\n" + line
  {
    assert (lines + [line])[..|lines|] == lines;
  }

  lemma {:induction false} SplitJoin(lines: seq<string>, last: string)
    requires Without(last, '\n') && forall l | l in lines :: Without(l, '\n')
    ensures Split(Join(lines + [last]), '\n') == lines + [last]
    decreases |lines|
  {
    hide Split;
    if lines == [] {
      SplitOne(last, '\n');
      assert [] + [last] == [last];
    } else {
      var n := |lines| - 1;
      OneMoreLine(lines, last);
      SplitTail(lines[..n], lines[n], last);
      SplitOne(last, '\n');
      assert lines[..n] + [lines[n]] == lines;
    }
  }

  lemma {:induction false} SplitTail(lines: seq<string>, line: string, rest: string)
    requires Without(line, '\n') && forall l | l in lines :: Without(l, '\n')
    ensures Split(Join(lines + [line]) + "\n" + rest, '\n') == lines + [line] + Split(rest, '\n')
    decreases |lines|
  {
    hide Split, Join;
    if lines == [] {
      OnlyLine(line);
      SplitAt(line, '\n', rest);
    } else {
      var n := |lines| - 1;
      OneMoreLine(lines, line);
      Regroup(Join(lines), line, rest);
      SplitTail(lines[..n], lines[n], line + "\n" + rest);
      assert lines[..n] + [lines[n]] == lines;
      SplitAt(line, '\n', rest);
      Append3(lines, line, Split(rest, '\n'));
    }
  }

  lemma OnlyLine(line: string)
    ensures Join([] + [line]) == line && [] + [line] == [line]
  {
  }

  lemma Regroup(a: string, b: string, c: string)
    ensures a + "\n" + b + "\n" + c == a + "\n" + (b + "\n" + c)
  {
  }

  lemma Append3(a: seq<string>, b: string, c: seq<string>)
    ensures a + ([b] + c) == a + [b] + c
  {
  }

  /** What the command is to leave on the target: the script, its configuration if there is one, and the
      script run with the configuration's path; any line that fails would have ended it. */
  function Sent(dir: string, script: seq<byte>, config: Option<seq<byte>>): Remote {
    if config.Some?
    then Ready(dir, map[dir + SCRIPT := script, dir + CONFIG := config.value]).(ran := [dir + SCRIPT, dir + CONFIG])
    else Ready(dir, map[dir + SCRIPT := script]).(ran := [dir + SCRIPT])
  }

  /** Before the last line, with these files. */
  function Ready(dir: string, files: map<string, seq<byte>>): Remote {
    Remote(true, {"/tmp", dir}, files, {dir + SCRIPT}, [])
  }

  predicate Clean(s: string) { Without(s, '\'') && Without(s, '\n') && Without(s, ' ') }

  lemma DirIsClean(nanos: nat)
    ensures Clean(TMP + Decimal(nanos) + SCRIPT) && Clean(TMP + Decimal(nanos) + CONFIG) && Clean(TMP + Decimal(nanos))
    ensures TMP + Decimal(nanos) + SCRIPT != TMP + Decimal(nanos) + CONFIG
  {
    hide Decimal;
    assert Clean(TMP);
    assert Clean(SCRIPT) && Clean(CONFIG);
    assert Clean(Decimal(nanos));
  }

  function EchoLine(bs: seq<byte>, file: string): string { ECHO + (Encode(bs) + "'" + (PIPE + file)) }

  /** RunScript's command for any script bytes and configuration: a shell that runs it decodes exactly these
      bytes into the two files and then runs the script. */
  method RunScript(script: seq<byte>, config: Option<seq<byte>>, nanos: nat) returns (cmd: string)
    ensures var task, yaml := TMP + Decimal(nanos) + "/task.sh", TMP + Decimal(nanos) + "/config.yaml";
      && Shell(cmd).Some?
      && Shell(cmd).value.files == (if config.Some? then map[task := script, yaml := config.value]
                                    else map[task := script])
      && Shell(cmd).value.ran == (if config.Some? then [task, yaml] else [task])
      && Shell(cmd).value.strict && task in Shell(cmd).value.executable
  {
    hide Shell, Encode, Split, Join, RunLines, RunLine, Decimal;
    var dir := TMP + Decimal(nanos);
    ghost var lines := [SET, MKDIR + dir];
    FirstLines(dir);
    cmd := SET + "\n" + (MKDIR + dir);
    OneMoreLine(lines, EchoLine(script, dir + SCRIPT));
    lines := lines + [EchoLine(script, dir + SCRIPT)];
    cmd := cmd + "\n" + EchoLine(script, dir + SCRIPT);
    OneMoreLine(lines, CHMOD + (dir + SCRIPT));
    lines := lines + [CHMOD + (dir + SCRIPT)];
    cmd := cmd + "\n" + (CHMOD + (dir + SCRIPT));
    if config.Some? {
      OneMoreLine(lines, EchoLine(config.value, dir + CONFIG));
      lines := lines + [EchoLine(config.value, dir + CONFIG)];
      cmd := cmd + "\n" + EchoLine(config.value, dir + CONFIG);
      OneMoreLine(lines, BASH + (dir + SCRIPT + " " + (dir + CONFIG)));
      cmd := cmd + "\n" + (BASH + (dir + SCRIPT + " " + (dir + CONFIG)));
    } else {
      OneMoreLine(lines, BASH + (dir + SCRIPT));
      cmd := cmd + "\n" + (BASH + (dir + SCRIPT));
    }
    assert lines == Lines(dir, script, config);
    DirIsClean(nanos);
    Understood(dir, script, config);
  }

  lemma FirstLines(dir: string)
    ensures Join([SET, MKDIR + dir]) == SET + "\n" + (MKDIR + dir)
  {
    OneMoreLine([SET], MKDIR + dir);
    assert [SET] + [MKDIR + dir] == [SET, MKDIR + dir];
  }

  function Lines(dir: string, script: seq<byte>, config: Option<seq<byte>>): seq<string> {
    [SET, MKDIR + dir] + [EchoLine(script, dir + SCRIPT)] + [CHMOD + (dir + SCRIPT)] +
    (if config.Some? then [EchoLine(config.value, dir + CONFIG)] else [])
  }

  function LastLine(dir: string, config: Option<seq<byte>>): string {
    BASH + (if config.Some? then dir + SCRIPT + " " + (dir + CONFIG) else dir + SCRIPT)
  }

  lemma RunFirst(r: Remote, line: string, next: Remote, rest: seq<string>)
    requires RunLine(r, line) == Some(next)
    ensures RunLines(r, [line] + rest) == RunLines(next, rest)
  {
    hide RunLine;
    assert ([line] + rest)[1..] == rest;
  }

  predicate OneLine(s: string) { Without(s, '\n') }

  lemma LinesAreLines(dir: string, script: seq<byte>, config: Option<seq<byte>>)
    requires Clean(dir) && Clean(dir + SCRIPT) && Clean(dir + CONFIG)
    ensures forall l | l in Lines(dir, script, config) :: OneLine(l)
    ensures OneLine(LastLine(dir, config))
  {
    hide Encode;
    EchoIsLine(script, dir + SCRIPT);
    if config.Some? { EchoIsLine(config.value, dir + CONFIG); }
    assert OneLine(SET) && OneLine(MKDIR) && OneLine(CHMOD) && OneLine(BASH);
  }

  lemma EchoIsLine(bs: seq<byte>, file: string)
    requires OneLine(file)
    ensures OneLine(EchoLine(bs, file))
  {
    hide Encode;
    Payload(bs);
    assert OneLine(ECHO) && OneLine(PIPE);
  }

  lemma Understood(dir: string, script: seq<byte>, config: Option<seq<byte>>)
    requires Clean(dir) && Clean(dir + SCRIPT) && Clean(dir + CONFIG) && dir + SCRIPT != dir + CONFIG
    ensures Shell(Join(Lines(dir, script, config) + [LastLine(dir, config)])) == Some(Sent(dir, script, config))
  {
    hide Encode, Split, Join, RunLines, RunLine, Clean, EchoLine;
    LinesAreLines(dir, script, config);
    SplitJoin(Lines(dir, script, config), LastLine(dir, config));
    Runs(dir, script, config);
  }

  lemma Runs(dir: string, script: seq<byte>, config: Option<seq<byte>>)
    requires Clean(dir) && Clean(dir + SCRIPT) && Clean(dir + CONFIG) && dir + SCRIPT != dir + CONFIG
    ensures RunLines(START, Lines(dir, script, config) + [LastLine(dir, config)]) ==
            Some(Sent(dir, script, config))
  {
    hide Encode, Split, RunLines, RunLine;
    var strict := START.(strict := true);
    var r0 := strict.(dirs := {"/tmp", dir});
    var r1 := r0.(files := map[dir + SCRIPT := script]);
    var last := LastLine(dir, config);
    var tail := (if config.Some? then [EchoLine(config.value, dir + CONFIG)] else []) + [last];
    var all := Lines(dir, script, config) + [last];
    SetRuns(START);
    RunFirst(START, SET, strict, all[1..]);
    assert all == [SET] + all[1..];
    LineMkdir(strict, dir);
    assert strict.dirs + {dir} == {"/tmp", dir};
    RunFirst(strict, MKDIR + dir, r0, all[2..]);
    assert all[1..] == [MKDIR + dir] + all[2..];
    InDir(dir);
    LineEcho(r0, script, dir + SCRIPT);
    RunFirst(r0, EchoLine(script, dir + SCRIPT), r1, all[3..]);
    assert all[2..] == [EchoLine(script, dir + SCRIPT)] + all[3..];
    LineChmod(r1, dir + SCRIPT);
    assert r1.executable + {dir + SCRIPT} == {dir + SCRIPT};
    RunFirst(r1, CHMOD + (dir + SCRIPT), Ready(dir, map[dir + SCRIPT := script]), tail);
    assert all[3..] == [CHMOD + (dir + SCRIPT)] + tail;
    RunsTail(dir, script, config);
  }

  lemma {:induction false} ParentOf(dir: string, name: string)
    requires Without(name, '/')
    ensures Parent(dir + "/" + name) == dir
  {
    var path := dir + "/" + name;
    var n := |path| - 1;
    if name == "" {
      assert path[..n] == dir;
    } else {
      assert path[n] == name[|name| - 1] && name[|name| - 1] in name;
      assert path[..n] == dir + "/" + name[..|name| - 1];
      var shorter := name[..|name| - 1];
      assert name == shorter + [name[|name| - 1]];
      forall c | c in shorter ensures c != '/' { assert c in shorter + [name[|name| - 1]]; }
      ParentOf(dir, shorter);
    }
  }

  lemma InDir(dir: string)
    ensures Parent(dir + SCRIPT) == dir && Parent(dir + CONFIG) == dir
  {
    hide Parent;
    ParentOf(dir, "task.sh");
    ParentOf(dir, "config.yaml");
    assert dir + SCRIPT == dir + "/" + "task.sh" && dir + CONFIG == dir + "/" + "config.yaml";
  }

  lemma SetRuns(r: Remote)
    ensures RunLine(r, SET) == Some(r.(strict := true))
  {
  }

  /** The configuration's file and the run itself. */
  lemma RunsTail(dir: string, script: seq<byte>, config: Option<seq<byte>>)
    requires Clean(dir + SCRIPT) && Clean(dir + CONFIG) && dir + SCRIPT != dir + CONFIG
    ensures RunLines(Ready(dir, map[dir + SCRIPT := script]),
                     (if config.Some? then [EchoLine(config.value, dir + CONFIG)] else []) + [LastLine(dir, config)])
            == Some(Sent(dir, script, config))
  {
    hide Encode, Split, RunLine;
    var r := Ready(dir, map[dir + SCRIPT := script]);
    var last := LastLine(dir, config);
    if config.Some? {
      var r' := Ready(dir, map[dir + SCRIPT := script, dir + CONFIG := config.value]);
      InDir(dir);
      LineEcho(r, config.value, dir + CONFIG);
      RunFirst(r, EchoLine(config.value, dir + CONFIG), r', [last]);
      SplitAt(dir + SCRIPT, ' ', dir + CONFIG);
      SplitOne(dir + CONFIG, ' ');
      assert " " == [' '] && Split(dir + SCRIPT + " " + (dir + CONFIG), ' ') == [dir + SCRIPT, dir + CONFIG];
      LineBash(r', dir + SCRIPT + " " + (dir + CONFIG));
      RunFirst(r', last, Sent(dir, script, config), []);
      assert [last] + [] == [last];
    } else {
      SplitOne(dir + SCRIPT, ' ');
      LineBash(r, dir + SCRIPT);
      RunFirst(r, last, Sent(dir, script, config), []);
      assert [] + [last] == [last] + [] == [last];
    }
  }
}
