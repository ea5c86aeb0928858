/** A target node and the task scripts that act on it. Every script runs under `set -e`:
    it stops at the first command that fails. */
module Collector {
  import opened Types

  /** What the scripts read and write on a node. `loaded` is the configuration the collector
      process was last started with. */
  datatype Node = Node(
    binary: bool, unit: bool,
    config: Option<string>, backup: Option<string>,
    loaded: Option<string>, active: bool)

  /** The exit status of a command that fails. */
  type Code = x: int | x != 0 witness 1

  /** How the commands of one script run turn out: commands numbered below `steps` succeed unless the
      node's own state makes them fail; a started service stays up iff `alive`; a restart that fails
      takes the service down iff `killed`; a command that fails does so with `code`. */
  datatype Luck = Luck(steps: nat, alive: bool, killed: bool, code: Code)

  /** `otelcol validate` as a predicate on configuration text. */
  type Validator = string -> bool

  const DEFAULT_CONFIG :=
    "receivers:\n  otlp:\n    protocols:\n      grpc:\n        endpoint: 0.0.0.0:4317\n\n"
    + "exporters:\n  debug:\n    verbosity: basic\n\n"
    + "service:\n  pipelines:\n    traces:\n      receivers: [otlp]\n      exporters: [debug]\n"

  function Started(n: Node, luck: Luck): Node {
    n.(loaded := n.config, active := luck.alive && n.config.Some?)
  }

  /** `systemctl restart` as command `k`, then `systemctl is-active`. */
  function Restart(n: Node, luck: Luck, k: nat): (Node, int) {
    if luck.steps <= k || !n.unit || !n.binary then (if luck.killed then n.(active := false) else n, luck.code)
    else
      var n' := Started(n, luck);
      (n', if luck.steps <= k + 1 || !n'.active then luck.code else 0)
  }

  /** `otelcol validate` on the installed file as command `k`, then restart and check. */
  function Activate(n: Node, valid: Validator, luck: Luck, k: nat): (Node, int) {
    if luck.steps <= k || !n.binary || n.config.None? || !valid(n.config.value) then (n, luck.code)
    else Restart(n, luck, k + 1)
  }

  function Deploy(n: Node, src: string, valid: Validator, luck: Luck): (Node, int) {
    if n.config.Some? && luck.steps <= 0 then (n, luck.code)
    else
      var n1 := if n.config.Some? then n.(backup := n.config) else n;
      if luck.steps <= 1 then (n1, luck.code) else Activate(n1.(config := Some(src)), valid, luck, 2)
  }

  function Rollback(n: Node, valid: Validator, luck: Luck): (Node, int) {
    if n.backup.None? then (n, 1)
    else if luck.steps <= 0 then (n, luck.code)
    else Activate(n.(config := n.backup), valid, luck, 1)
  }

  function Validate(n: Node, src: string, valid: Validator, luck: Luck): (Node, int) {
    (n, if luck.steps <= 0 || !n.binary || !valid(src) then luck.code else 0)
  }

  function Stop(n: Node, luck: Luck): (Node, int) {
    if luck.steps <= 0 || !n.unit then (n, luck.code as int) else (n.(active := false), 0)
  }

  function Install(n: Node, valid: Validator, luck: Luck): (Node, int) {
    if luck.steps <= 0 then (n, luck.code)
    else if n.binary && n.unit then
      if !n.active && luck.steps <= 1 then (n, luck.code)
      else (if n.active then n else Started(n, luck), if luck.steps <= 2 then luck.code else 0)
    else if luck.steps <= 4 then (n, luck.code)
    else
      var n1 := n.(binary := true);
      if luck.steps <= 5 then (n1, luck.code)
      else
        var n2 := if n1.config.None? then n1.(config := Some(DEFAULT_CONFIG)) else n1;
        if luck.steps <= 6 then (n2, luck.code)
        else
          var n3 := n2.(unit := true);
          if luck.steps <= 9 || !valid(n3.config.value) then (n3, luck.code)
          else
            var (n4, code) := Restart(n3, luck, 10);
            (n4, if code == 0 && luck.steps <= 12 then luck.code else code)
  }

  /** One script run as RunScript starts it; a script that wants its argument and gets none fails. */
  function RunTask(n: Node, task: TaskType, config: Option<string>, valid: Validator, luck: Luck): (Node, int) {
    match task
    case DeployConfig => if config.None? then (n, luck.code) else Deploy(n, config.value, valid, luck)
    case ValidateConfig => if config.None? then (n, luck.code) else Validate(n, config.value, valid, luck)
    case RollbackConfig => Rollback(n, valid, luck)
    case RestartCollector => Restart(n, luck, 0)
    case StopCollector => Stop(n, luck)
    case InstallAgent => Install(n, valid, luck)
    case _ => (n, if luck.steps <= 0 then luck.code else 0)
  }

  /** The node, as the scripts change it in place. */
  class Host {
    var binary: bool
    var unit: bool
    var config: Option<string>
    var backup: Option<string>
    var loaded: Option<string>
    var active: bool

    function State(): Node
      reads this
    {
      Node(binary, unit, config, backup, loaded, active)
    }

    constructor (n: Node)
      ensures State() == n
    {
      binary, unit, config, backup, loaded, active := n.binary, n.unit, n.config, n.backup, n.loaded, n.active;
    }

    method StartService(luck: Luck)
      modifies this`loaded, this`active
      ensures State() == Started(old(State()), luck)
    {
      loaded := config;
      active := luck.alive && config.Some?;
    }

    method RunRestart(luck: Luck, k: nat) returns (exit: int)
      modifies this`loaded, this`active
      ensures (State(), exit) == Restart(old(State()), luck, k)
    {
      if luck.steps <= k || !unit || !binary {
        if luck.killed { active := false; }
        return luck.code;
      }
      StartService(luck);
      if luck.steps <= k + 1 || !active { return luck.code; }
      return 0;
    }

    method RunActivate(valid: Validator, luck: Luck, k: nat) returns (exit: int)
      modifies this`loaded, this`active
      ensures (State(), exit) == Activate(old(State()), valid, luck, k)
    {
      if luck.steps <= k || !binary || config.None? || !valid(config.value) { return luck.code; }
      exit := RunRestart(luck, k + 1);
    }

    method RunDeploy(src: string, valid: Validator, luck: Luck) returns (exit: int)
      modifies this
      ensures (State(), exit) == Deploy(old(State()), src, valid, luck)
    {
      if config.Some? {
        if luck.steps <= 0 { return luck.code; }
        backup := config;
      }
      if luck.steps <= 1 { return luck.code; }
      config := Some(src);
      exit := RunActivate(valid, luck, 2);
    }

    method RunRollback(valid: Validator, luck: Luck) returns (exit: int)
      modifies this
      ensures (State(), exit) == Rollback(old(State()), valid, luck)
    {
      if backup.None? { return 1; }
      if luck.steps <= 0 { return luck.code; }
      config := backup;
      exit := RunActivate(valid, luck, 1);
    }

    method RunValidate(src: string, valid: Validator, luck: Luck) returns (exit: int)
      ensures (State(), exit) == Validate(State(), src, valid, luck)
    {
      exit := if luck.steps <= 0 || !binary || !valid(src) then luck.code else 0;
    }

    method RunStop(luck: Luck) returns (exit: int)
      modifies this`active
      ensures (State(), exit) == Stop(old(State()), luck)
    {
      if luck.steps <= 0 || !unit { return luck.code; }
      active := false;
      return 0;
    }

    method RunInstall(valid: Validator, luck: Luck) returns (exit: int)
      modifies this
      ensures (State(), exit) == Install(old(State()), valid, luck)
    {
      if luck.steps <= 0 { return luck.code; }
      if binary && unit {
        if !active {
          if luck.steps <= 1 { return luck.code; }
          StartService(luck);
        }
        return if luck.steps <= 2 then luck.code else 0;
      }
      if luck.steps <= 4 { return luck.code; }
      binary := true;
      if luck.steps <= 5 { return luck.code; }
      if config.None? { config := Some(DEFAULT_CONFIG); }
      if luck.steps <= 6 { return luck.code; }
      unit := true;
      if luck.steps <= 9 || !valid(config.value) { return luck.code; }
      exit := RunRestart(luck, 10);
      if exit == 0 && luck.steps <= 12 { exit := luck.code; }
    }

    /** The script RunScript sends for a task; one that wants its argument and gets none fails. */
    method RunScriptOf(task: TaskType, src: Option<string>, valid: Validator, luck: Luck) returns (exit: int)
      modifies this
      ensures (State(), exit) == RunTask(old(State()), task, src, valid, luck)
    {
      match task {
        case DeployConfig =>
          if src.None? { return luck.code; }
          exit := RunDeploy(src.value, valid, luck);
        case ValidateConfig =>
          if src.None? { return luck.code; }
          exit := RunValidate(src.value, valid, luck);
        case RollbackConfig => exit := RunRollback(valid, luck);
        case RestartCollector => exit := RunRestart(luck, 0);
        case StopCollector => exit := RunStop(luck);
        case InstallAgent => exit := RunInstall(valid, luck);
        case _ => exit := if luck.steps <= 0 then luck.code else 0;
      }
    }
  }

  // ---------- what the scripts promise ----------

  /** What exit status 0 of each task says about the node it leaves. */
  ghost predicate Achieved(task: TaskType, config: Option<string>, valid: Validator, n: Node) {
    match task
    case DeployConfig =>
      config.Some? && valid(config.value) && n.config == n.loaded == config && n.active
    case ValidateConfig => config.Some? && valid(config.value)
    case RollbackConfig =>
      n.backup.Some? && valid(n.backup.value) && n.config == n.loaded == n.backup && n.active
    case RestartCollector => n.config.Some? && n.loaded == n.config && n.active
    case StopCollector => !n.active
    case InstallAgent => n.binary && n.unit
    case _ => true
  }

  lemma ExitZeroMeans(n: Node, task: TaskType, config: Option<string>, valid: Validator, luck: Luck)
    requires RunTask(n, task, config, valid, luck).1 == 0
    ensures Achieved(task, config, valid, RunTask(n, task, config, valid, luck).0)
  {
  }

  // ---------- exactly when each script succeeds, and what it leaves ----------

  /** Deploy: commands 0 to 4 are the two copies, validate, restart and is-active. */
  lemma DeployExactly(n: Node, src: string, valid: Validator, luck: Luck)
    ensures var (n', exit) := Deploy(n, src, valid, luck);
      var validated := luck.steps >= 3 && n.binary && valid(src);
      var restarted := validated && luck.steps >= 4 && n.unit;
      && (exit == 0 <==> luck.steps >= 5 && n.binary && n.unit && valid(src) && luck.alive)
      && (exit != 0 ==> exit == luck.code)
      && n'.binary == n.binary && n'.unit == n.unit
      && n'.config == (if luck.steps >= 2 then Some(src) else n.config)
      && n'.backup == (if luck.steps >= 1 && n.config.Some? then n.config else n.backup)
      && n'.loaded == (if restarted then Some(src) else n.loaded)
      && n'.active == (if restarted then luck.alive else n.active && !(validated && luck.killed))
  {
  }

  /** Rollback: commands 0 to 3 are the copy back, validate, restart and is-active. */
  lemma RollbackExactly(n: Node, valid: Validator, luck: Luck)
    ensures var (n', exit) := Rollback(n, valid, luck);
      var validated := luck.steps >= 2 && n.binary && n.backup.Some? && valid(n.backup.value);
      var restarted := validated && luck.steps >= 3 && n.unit;
      && (exit == 0 <==> luck.steps >= 4 && n.binary && n.unit && n.backup.Some? && valid(n.backup.value) && luck.alive)
      && (exit != 0 ==> exit == if n.backup.None? then 1 else luck.code)
      && n'.binary == n.binary && n'.unit == n.unit && n'.backup == n.backup
      && n'.config == (if luck.steps >= 1 && n.backup.Some? then n.backup else n.config)
      && n'.loaded == (if restarted then n.backup else n.loaded)
      && n'.active == (if restarted then luck.alive else n.active && !(validated && luck.killed))
  {
  }

  lemma RestartExactly(n: Node, luck: Luck)
    ensures var (n', exit) := Restart(n, luck, 0);
      var restarted := luck.steps >= 1 && n.unit && n.binary;
      && (exit == 0 <==> luck.steps >= 2 && n.unit && n.binary && n.config.Some? && luck.alive)
      && (exit != 0 ==> exit == luck.code)
      && n'.binary == n.binary && n'.unit == n.unit && n'.config == n.config && n'.backup == n.backup
      && n'.loaded == (if restarted then n.config else n.loaded)
      && n'.active == (if restarted then luck.alive && n.config.Some? else n.active && !luck.killed)
  {
  }

  lemma StopExactly(n: Node, luck: Luck)
    ensures var (n', exit) := Stop(n, luck);
      && (exit == 0 <==> luck.steps >= 1 && n.unit) && (exit != 0 ==> exit == luck.code)
      && n' == Node(n.binary, n.unit, n.config, n.backup, n.loaded, n.active && exit != 0)
  {
  }

  lemma ValidateExactly(n: Node, src: string, valid: Validator, luck: Luck)
    ensures var (n', exit) := Validate(n, src, valid, luck);
      n' == n && (exit == 0 <==> luck.steps >= 1 && n.binary && valid(src)) && (exit != 0 ==> exit == luck.code)
  {
  }

  /** Install where binary and unit are there: a stopped service is started with whatever file there is. */
  lemma InstalledExactly(n: Node, valid: Validator, luck: Luck)
    requires n.binary && n.unit
    ensures var (n', exit) := Install(n, valid, luck);
      var started := !n.active && luck.steps >= 2;
      && (exit == 0 <==> luck.steps >= 3) && (exit != 0 ==> exit == luck.code)
      && n'.binary && n'.unit && n'.config == n.config && n'.backup == n.backup
      && n'.loaded == (if started then n.config else n.loaded)
      && n'.active == (n.active || (started && n.config.Some? && luck.alive))
  {
  }

  /** Install anywhere else: commands 5 and 6 write the configuration if there is none and the unit, 10 to 12
      restart, check and print the version. */
  lemma FreshInstallExactly(n: Node, valid: Validator, luck: Luck)
    requires !n.binary || !n.unit
    ensures var (n', exit) := Install(n, valid, luck);
      var file := if n.config.Some? then n.config.value else DEFAULT_CONFIG;
      var reached := luck.steps >= 10 && valid(file);
      var restarted := luck.steps >= 11 && valid(file);
      && (exit == 0 <==> luck.steps >= 13 && valid(file) && luck.alive) && (exit != 0 ==> exit == luck.code)
      && n'.binary == (n.binary || luck.steps >= 5) && n'.unit == (n.unit || luck.steps >= 7)
      && n'.config == (if luck.steps >= 6 then Some(file) else n.config) && n'.backup == n.backup
      && n'.loaded == (if restarted then Some(file) else n.loaded)
      && n'.active == (if restarted then luck.alive else n.active && !(reached && luck.killed))
  {
  }

  /** What each task needs for its script to exit 0. */
  predicate Works(n: Node, task: TaskType, config: Option<string>, valid: Validator, luck: Luck) {
    match task
    case DeployConfig =>
      luck.steps >= 5 && n.binary && n.unit && luck.alive && config.Some? && valid(config.value)
    case ValidateConfig => luck.steps >= 1 && n.binary && config.Some? && valid(config.value)
    case RestartCollector => luck.steps >= 2 && n.binary && n.unit && luck.alive && n.config.Some?
    case CheckStatus => luck.steps >= 1
    case FetchLogs => luck.steps >= 1
    case RollbackConfig =>
      luck.steps >= 4 && n.binary && n.unit && luck.alive && n.backup.Some? && valid(n.backup.value)
    case StopCollector => luck.steps >= 1 && n.unit
    case SshTest => luck.steps >= 1
    case InstallAgent =>
      if n.binary && n.unit then luck.steps >= 3
      else luck.steps >= 13 && luck.alive && valid(if n.config.Some? then n.config.value else DEFAULT_CONFIG)
    case UnknownTask(_) => false
  }

  /** A script exits 0 exactly if its task has what it needs; otherwise with the status of the command that
      failed. A task without a script is not run at all. */
  lemma TaskExactly(n: Node, task: TaskType, config: Option<string>, valid: Validator, luck: Luck)
    requires !task.UnknownTask?
    ensures var exit := RunTask(n, task, config, valid, luck).1;
      exit == if Works(n, task, config, valid, luck) then 0
              else if task.RollbackConfig? && n.backup.None? then 1 else luck.code
    ensures task.ValidateConfig? || task.CheckStatus? || task.FetchLogs? || task.SshTest? ==>
              RunTask(n, task, config, valid, luck).0 == n
  {
    hide Deploy, Rollback, Install;
    if config.Some? { DeployExactly(n, config.value, valid, luck); }
    RollbackExactly(n, valid, luck);
    if n.binary && n.unit { InstalledExactly(n, valid, luck); } else { FreshInstallExactly(n, valid, luck); }
  }

  /** A configuration that fails validation never reaches the running service, whatever else fails. */
  lemma RejectedConfigIsNotLoaded(n: Node, src: string, valid: Validator, luck: Luck)
    requires !valid(src)
    ensures var (n', exit) := Deploy(n, src, valid, luck);
      exit != 0 && n'.loaded == n.loaded && n'.active == n.active
  {
  }

  /** It stays on disk, though: a restart that can start the service loads it, unvalidated. */
  lemma RejectedConfigIsLoadedLater(n: Node, src: string, valid: Validator, luck: Luck, restart: Luck)
    requires !valid(src) && luck.steps >= 2
    ensures Restart(Deploy(n, src, valid, luck).0, restart, 0).0.loaded ==
            if restart.steps >= 1 && n.unit && n.binary then Some(src) else n.loaded
  {
  }

  /** Installing never touches a configuration that is there, nor the backup; where there is none it puts
      the default. On a node without an installation, exit status 0 means the collector runs the file. */
  lemma InstallKeepsConfig(n: Node, valid: Validator, luck: Luck)
    ensures var (n', exit) := Install(n, valid, luck);
      && n'.backup == n.backup && (n.config.Some? ==> n'.config == n.config)
      && (n.config.None? ==> n'.config.None? || n'.config == Some(DEFAULT_CONFIG))
      && (exit == 0 && !(n.binary && n.unit) ==>
            n'.config.Some? && valid(n'.config.value) && n'.loaded == n'.config && n'.active)
  {
  }

  /** One node over a sequence of task runs. */
  datatype Run = Run(task: TaskType, config: Option<string>, luck: Luck)

  function Step(n: Node, valid: Validator, r: Run): Node {
    RunTask(n, r.task, r.config, valid, r.luck).0
  }

  function After(n: Node, valid: Validator, runs: seq<Run>): Node {
    if runs == [] then n else Step(After(n, valid, runs[..|runs| - 1]), valid, runs[|runs| - 1])
  }

  /** This run is a deploy that gets past its backup copy. */
  predicate SavesConfig(n: Node, r: Run) {
    r.task.DeployConfig? && r.config.Some? && r.luck.steps >= 1 && n.config.Some?
  }

  predicate Saves(n: Node, valid: Validator, runs: seq<Run>, k: nat)
    requires k < |runs|
  {
    SavesConfig(After(n, valid, runs[..k]), runs[k])
  }

  lemma StepBackup(n: Node, valid: Validator, r: Run)
    ensures Step(n, valid, r).backup == if SavesConfig(n, r) then n.config else n.backup
    ensures n.config.Some? ==> Step(n, valid, r).config.Some?
  {
    hide Deploy, Rollback, Restart, Install;
    TaskFiles(n, valid, r);
  }

  /** What each script does to files, as far as the next lemmas need it. */
  lemma TaskFiles(n: Node, valid: Validator, r: Run)
    ensures r.task.DeployConfig? && r.config.Some? ==>
      var n' := Deploy(n, r.config.value, valid, r.luck).0;
      && n'.config == (if r.luck.steps >= 2 then r.config else n.config)
      && n'.backup == (if r.luck.steps >= 1 && n.config.Some? then n.config else n.backup)
      && (n'.loaded == r.config || n'.loaded == n.loaded)
    ensures var n' := Rollback(n, valid, r.luck).0;
      && n'.backup == n.backup && (n'.config == n.config || (n.backup.Some? && n'.config == n.backup))
      && (n'.loaded == n.loaded || n'.loaded == n.backup)
    ensures var n' := Restart(n, r.luck, 0).0;
      n'.backup == n.backup && n'.config == n.config && (n'.loaded == n.loaded || n'.loaded == n.config)
    ensures var n' := Install(n, valid, r.luck).0;
      && n'.backup == n.backup && (n'.config == n.config || n'.config == Some(DEFAULT_CONFIG))
      && (n.config.Some? ==> n'.config == n.config)
      && (n'.loaded == n.loaded || n'.loaded == n.config || n'.loaded == Some(DEFAULT_CONFIG))
  {
    hide Deploy, Rollback, Restart, Install;
    if r.config.Some? { DeployExactly(n, r.config.value, valid, r.luck); }
    RollbackExactly(n, valid, r.luck);
    RestartExactly(n, r.luck);
    if n.binary && n.unit { InstalledExactly(n, valid, r.luck); } else { FreshInstallExactly(n, valid, r.luck); }
  }

  ghost predicate LastSave(n: Node, valid: Validator, runs: seq<Run>, k: nat)
    requires k < |runs|
  {
    Saves(n, valid, runs, k) && forall m | k < m < |runs| :: !Saves(n, valid, runs, m)
  }

  /** Over any sequence of tasks with any command failures, on a node that starts without a backup:
      a backup implies a config file; there is one iff some deploy completed its backup copy, and it is
      then the config that was present just before the latest such deploy. */
  lemma {:induction false} BackupIsLatestSave(n: Node, valid: Validator, runs: seq<Run>)
    requires n.backup.None?
    ensures var m := After(n, valid, runs);
      if m.backup.None? then forall k | 0 <= k < |runs| :: !Saves(n, valid, runs, k)
      else m.config.Some? && exists k | 0 <= k < |runs| ::
             LastSave(n, valid, runs, k) && m.backup == After(n, valid, runs[..k]).config
  {
    hide RunTask;
    if runs != [] {
      var last := |runs| - 1;
      var before := runs[..last];
      BackupIsLatestSave(n, valid, before);
      StepBackup(After(n, valid, before), valid, runs[last]);
      forall k | 0 <= k < last ensures Saves(n, valid, runs, k) == Saves(n, valid, before, k) {
        assert runs[..k] == before[..k];
      }
      if Saves(n, valid, runs, last) {
        assert LastSave(n, valid, runs, last);
      } else if After(n, valid, before).backup.Some? {
        var k :| 0 <= k < last && LastSave(n, valid, before, k)
                 && After(n, valid, before).backup == After(n, valid, before[..k]).config;
        assert runs[..k] == before[..k];
        assert LastSave(n, valid, runs, k);
      }
    }
  }

  predicate Has(n: Node, text: string) {
    n.config == Some(text) || n.backup == Some(text) || n.loaded == Some(text)
  }

  lemma StepFiles(n: Node, valid: Validator, r: Run, text: string)
    requires Has(Step(n, valid, r), text) && !Has(n, text) && text != DEFAULT_CONFIG
    ensures r.task.DeployConfig? && r.config == Some(text)
  {
    hide Deploy, Rollback, Restart, Install;
    TaskFiles(n, valid, r);
  }

  /** A text that gets onto a node after the start is the installer's or came with a deploy. */
  lemma {:induction false} FilesComeFromDeploys(n: Node, valid: Validator, runs: seq<Run>, text: string)
    requires Has(After(n, valid, runs), text) && !Has(n, text) && text != DEFAULT_CONFIG
    ensures exists k | 0 <= k < |runs| :: runs[k].task.DeployConfig? && runs[k].config == Some(text)
  {
    hide RunTask;
    var before, last := runs[..|runs| - 1], runs[|runs| - 1];
    if Has(After(n, valid, before), text) {
      FilesComeFromDeploys(n, valid, before, text);
      var k :| 0 <= k < |before| && before[k].task.DeployConfig? && before[k].config == Some(text);
      assert runs[k] == before[k];
    } else {
      StepFiles(After(n, valid, before), valid, last, text);
    }
  }

  /** A rollback that gets past its copy restores exactly the backup, keeps the backup, and any number
      of further rollbacks changes no file. */
  lemma {:induction false} RollbacksAreIdempotent(n: Node, valid: Validator, first: Luck, more: seq<Run>)
    requires n.backup.Some? && first.steps >= 1
    requires forall r | r in more :: r.task.RollbackConfig?
    ensures var n' := After(Rollback(n, valid, first).0, valid, more);
      n'.config == n.backup && n'.backup == n.backup
  {
    if more != [] {
      RollbacksAreIdempotent(n, valid, first, more[..|more| - 1]);
      assert more[|more| - 1] in more;
    }
  }

  /** On a node whose backup implies a config, a deploy past its first two copies followed by a rollback
      past its copy gives the config file back iff there was one. */
  lemma RollbackUndoesDeploy(n: Node, src: string, valid: Validator, d: Luck, r: Luck)
    requires n.backup.Some? ==> n.config.Some?
    requires d.steps >= 2 && r.steps >= 1
    ensures Rollback(Deploy(n, src, valid, d).0, valid, r).0.config == n.config <==> n.config.Some?
  {
  }

  /** The files a deploy past its copies leaves, and a rollback past its copy. */
  lemma FilesAfter(n: Node, src: string, valid: Validator, luck: Luck)
    ensures luck.steps >= 2 ==> Deploy(n, src, valid, luck).0.config == Some(src)
    ensures luck.steps >= 1 && n.config.Some? ==> Deploy(n, src, valid, luck).0.backup == n.config
    ensures luck.steps >= 1 && n.backup.Some? ==> Rollback(n, valid, luck).0.config == n.backup
  {
  }

  /** Deploying twice (as re-running a failed deploy does) saves the first deploy's file over the only
      copy of the original: a rollback then restores the original iff both deploys' predecessor agree. */
  lemma SecondDeployLosesBackup(n: Node, src: string, valid: Validator, d1: Luck, d2: Luck, again: string, r: Luck)
    requires n.config.Some? && d1.steps >= 2 && d2.steps >= 1 && r.steps >= 1
    ensures var n' := Rollback(Deploy(Deploy(n, src, valid, d1).0, again, valid, d2).0, valid, r).0;
      && n'.config == Some(src)
      && (n'.config == n.config <==> Some(src) == n.config)
  {
    hide Deploy, Rollback;
    var n1 := Deploy(n, src, valid, d1).0;
    FilesAfter(n, src, valid, d1);
    FilesAfter(n1, again, valid, d2);
    FilesAfter(Deploy(n1, again, valid, d2).0, again, valid, r);
  }
}
