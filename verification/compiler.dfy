/**
 * The invocation compiler: from an applet record plus the runtime context to
 * the argument vectors handed to the `docker` executable.
 *
 * What the Go launcher reads from the process, and the library regular-expression
 * search it calls, are passed in explicitly:
 *   attached     whether standard input is a terminal
 *   hostEnv      the process environment, as `KEY=VALUE` entries in host order
 *   matchString  the regular-expression search, pattern first, entry second
 *   expand       `$VAR` / `${VAR}` substitution from the process environment
 */
module Compiler {
  import opened AppletConfig
  import opened ArgVector

  const DockerExe := "docker"

  const KillVerb := "kill"
  const RunVerb := "run"

  const NameFlag := "--name"
  const WorkDirFlag := "--workdir"
  const EntrypointFlag := "--entrypoint"
  const RestartFlag := "--restart"
  const NetworkFlag := "--network"
  const RmFlag := "--rm"
  const InteractiveFlag := "--interactive"
  const PrivilegedFlag := "--privileged"
  const DetachFlag := "--detach"
  const TtyFlag := "--tty"
  const EnvFlag := "-e"
  const VolumeFlag := "-v"
  const PortFlag := "-p"
  const EnvFileFlag := "--env-file"
  const LinkFlag := "--link"

  /** The number of option flags the run vector can carry. */
  const OptionCount := 15

  /**
   * The position of `t` in the fixed order in which the run vector emits its
   * options, or `OptionCount` when `t` is not an option flag.
   */
  function Stage(t: string): (k: nat)
    ensures k <= OptionCount
  {
    if t == NameFlag then 0
    else if t == WorkDirFlag then 1
    else if t == EntrypointFlag then 2
    else if t == RestartFlag then 3
    else if t == NetworkFlag then 4
    else if t == RmFlag then 5
    else if t == InteractiveFlag then 6
    else if t == PrivilegedFlag then 7
    else if t == DetachFlag then 8
    else if t == TtyFlag then 9
    else if t == EnvFlag then 10
    else if t == VolumeFlag then 11
    else if t == PortFlag then 12
    else if t == EnvFileFlag then 13
    else if t == LinkFlag then 14
    else OptionCount
  }

  /** A program name and its argument vector. */
  datatype Cmd = Cmd(program: string, args: seq<string>)

  /**
   * What one regular-expression search reports: whether the pattern was
   * found, or that the pattern does not compile (then nothing is found).
   */
  datatype MatchResult = Found(matched: bool) | BadPattern

  /** Whether a search result lets the entry through; a bad pattern counts as no match. */
  predicate Accepts(m: MatchResult)
  {
    m == Found(true)
  }

  /** The entries of `entries` the search accepts, in their input order. */
  function Matching(matchString: (string, string) -> MatchResult, pattern: string, entries: seq<string>): (r: seq<string>)
    ensures |r| <= |entries|
    ensures forall e :: e in r <==> e in entries && Accepts(matchString(pattern, e))
    decreases |entries|
  {
    if |entries| == 0 then []
    else
      (if Accepts(matchString(pattern, entries[0])) then [entries[0]] else [])
      + Matching(matchString, pattern, entries[1..])
  }

  /** The host entries forwarded with `-e`: none at all unless `allEnvs` is set. */
  function Forwarded(a: Applet, hostEnv: seq<string>, matchString: (string, string) -> MatchResult): (r: seq<string>)
    ensures |r| <= |hostEnv|
    ensures forall e :: e in r <==> a.allEnvs && e in hostEnv && Accepts(matchString(a.envFilter, e))
  {
    if a.allEnvs then Matching(matchString, a.envFilter, hostEnv) else []
  }

  /** The positional image reference `image:tag`. */
  function ImageRef(a: Applet): string
  {
    a.image + ":" + a.tag
  }

  /** The arguments after the image: the caller's extra arguments if any, else the configured command. */
  function TrailingArgs(command: seq<string>, extra: seq<string>): (r: seq<string>)
    ensures |extra| > 0 ==> r == extra
    ensures |extra| == 0 ==> r == command
    ensures |r| == 0 <==> |command| == 0 && |extra| == 0
  {
    if |command| != 0 && |extra| == 0 then command else extra
  }

  /** The argument vector of the kill invocation. */
  function KillArgs(a: Applet): seq<string>
  {
    [KillVerb, a.name]
  }

  /** The kill invocation: the name is passed whatever it is, even "". */
  function KillCmd(a: Applet): (c: Cmd)
    ensures c.program == DockerExe
    ensures |c.args| == 2 && c.args[0] == KillVerb && c.args[1] == a.name
  {
    Cmd(DockerExe, KillArgs(a))
  }

  /** The valued options, each present only when its field is non-empty. */
  function OptionArgs(a: Applet, expand: string -> string): seq<string>
  {
    Valued(NameFlag, a.name)
    + Guarded(WorkDirFlag, a.workDir != "", expand(a.workDir))
    + Valued(EntrypointFlag, a.entrypoint)
    + Valued(RestartFlag, a.restart)
    + Valued(NetworkFlag, a.network)
  }

  /** The bare flags; `--tty` needs both the field and an attached terminal. */
  function SwitchArgs(a: Applet, attached: bool): seq<string>
  {
    Switch(RmFlag, a.rm)
    + Switch(InteractiveFlag, a.interactive)
    + Switch(PrivilegedFlag, a.privileged)
    + Switch(DetachFlag, a.detach)
    + Switch(TtyFlag, attached && a.tty)
  }

  /** The repeated options: forwarded host entries, then each list field in declaration order. */
  function ListArgs(
    a: Applet, hostEnv: seq<string>,
    matchString: (string, string) -> MatchResult, expand: string -> string): seq<string>
  {
    Pairs(EnvFlag, Forwarded(a, hostEnv, matchString))
    + Pairs(EnvFlag, Expanded(expand, a.env))
    + Pairs(VolumeFlag, Expanded(expand, a.volumes))
    + Pairs(PortFlag, a.ports)
    + Pairs(EnvFileFlag, a.envFile)
    + Pairs(LinkFlag, a.links)
  }

  /** The argument vector of the run invocation, in its fixed order. */
  function RunArgs(
    a: Applet, attached: bool, hostEnv: seq<string>,
    matchString: (string, string) -> MatchResult, expand: string -> string,
    extra: seq<string>): (r: seq<string>)
    ensures var t := TrailingArgs(a.command, extra);
      && |r| >= |t| + 2
      && r[0] == RunVerb
      && r[|r| - |t| - 1] == a.image + ":" + a.tag
      && r[|r| - |t|..] == t
  {
    [RunVerb]
    + OptionArgs(a, expand)
    + SwitchArgs(a, attached)
    + ListArgs(a, hostEnv, matchString, expand)
    + [ImageRef(a)]
    + TrailingArgs(a.command, extra)
  }

  /** The run invocation. */
  function RunCmd(
    a: Applet, attached: bool, hostEnv: seq<string>,
    matchString: (string, string) -> MatchResult, expand: string -> string,
    extra: seq<string>): (c: Cmd)
    ensures c.program == DockerExe
    ensures |c.args| > 0 && c.args[0] == RunVerb
  {
    Cmd(DockerExe, RunArgs(a, attached, hostEnv, matchString, expand, extra))
  }

  lemma {:induction false} MatchingAppend(
    matchString: (string, string) -> MatchResult, pattern: string, xs: seq<string>, ys: seq<string>)
    ensures Matching(matchString, pattern, xs + ys)
         == Matching(matchString, pattern, xs) + Matching(matchString, pattern, ys)
    decreases |xs|
  {
    if |xs| == 0 {
      assert xs + ys == ys;
    } else {
      assert (xs + ys)[1..] == xs[1..] + ys;
      MatchingAppend(matchString, pattern, xs[1..], ys);
    }
  }

  /**
   * Substitution reaches only the work directory and the `env` and `volumes`
   * entries: two substitutions that agree on those give the same vector, so
   * ports, env files, links, the image and the command pass through verbatim.
   */
  lemma ExpansionScope(
    a: Applet, attached: bool, hostEnv: seq<string>,
    matchString: (string, string) -> MatchResult, expand: string -> string, other: string -> string,
    extra: seq<string>)
    requires a.workDir != "" ==> expand(a.workDir) == other(a.workDir)
    requires forall x :: x in a.env ==> expand(x) == other(x)
    requires forall x :: x in a.volumes ==> expand(x) == other(x)
    ensures RunArgs(a, attached, hostEnv, matchString, expand, extra)
         == RunArgs(a, attached, hostEnv, matchString, other, extra)
  {
    assert Expanded(expand, a.env) == Expanded(other, a.env);
    assert Expanded(expand, a.volumes) == Expanded(other, a.volumes);
    assert OptionArgs(a, expand) == OptionArgs(a, other);
  }

  /** When the search accepts no entry at all, nothing is kept. */
  lemma {:induction false} NothingAccepted(
    matchString: (string, string) -> MatchResult, pattern: string, entries: seq<string>)
    requires forall e :: matchString(pattern, e) == BadPattern
    ensures Matching(matchString, pattern, entries) == []
    decreases |entries|
  {
    if |entries| > 0 {
      NothingAccepted(matchString, pattern, entries[1..]);
    }
  }

  /** Appends one `-e entry` pair per host entry the search accepts, scanning in host order. */
  method AppendMatching(
    args: seq<string>, matchString: (string, string) -> MatchResult, pattern: string, hostEnv: seq<string>)
    returns (r: seq<string>)
    ensures r == args + Pairs(EnvFlag, Matching(matchString, pattern, hostEnv))
  {
    r := args;
    var i := 0;
    while i < |hostEnv|
      invariant 0 <= i <= |hostEnv|
      invariant r == args + Pairs(EnvFlag, Matching(matchString, pattern, hostEnv[..i]))
    {
      var f := hostEnv[i];
      ghost var seen := Matching(matchString, pattern, hostEnv[..i]);
      assert hostEnv[..i + 1] == hostEnv[..i] + [f];
      MatchingAppend(matchString, pattern, hostEnv[..i], [f]);
      if Accepts(matchString(pattern, f)) {
        assert Matching(matchString, pattern, [f]) == [f];
        PairsSnoc(EnvFlag, seen, f);
        AppendAssoc(args, Pairs(EnvFlag, seen), [EnvFlag, f]);
        r := r + [EnvFlag, f];
      } else {
        assert Matching(matchString, pattern, [f]) == [];
        assert seen + [] == seen;
      }
      i := i + 1;
    }
    assert hostEnv[..i] == hostEnv;
  }

  /** Appends one `flag expand(x)` pair per entry, in order. */
  method AppendExpanded(args: seq<string>, flag: string, xs: seq<string>, expand: string -> string)
    returns (r: seq<string>)
    ensures r == args + Pairs(flag, Expanded(expand, xs))
  {
    r := args;
    var i := 0;
    while i < |xs|
      invariant 0 <= i <= |xs|
      invariant r == args + Pairs(flag, Expanded(expand, xs[..i]))
    {
      assert xs[..i + 1] == xs[..i] + [xs[i]];
      ExpandedSnoc(expand, xs[..i], xs[i]);
      PairsSnoc(flag, Expanded(expand, xs[..i]), expand(xs[i]));
      AppendAssoc(args, Pairs(flag, Expanded(expand, xs[..i])), [flag, expand(xs[i])]);
      r := r + [flag, expand(xs[i])];
      i := i + 1;
    }
    assert xs[..i] == xs;
  }

  /** Appends one `flag x` pair per entry, verbatim and in order. */
  method AppendVerbatim(args: seq<string>, flag: string, xs: seq<string>)
    returns (r: seq<string>)
    ensures r == args + Pairs(flag, xs)
  {
    r := args;
    var i := 0;
    while i < |xs|
      invariant 0 <= i <= |xs|
      invariant r == args + Pairs(flag, xs[..i])
    {
      assert xs[..i + 1] == xs[..i] + [xs[i]];
      PairsSnoc(flag, xs[..i], xs[i]);
      AppendAssoc(args, Pairs(flag, xs[..i]), [flag, xs[i]]);
      r := r + [flag, xs[i]];
      i := i + 1;
    }
    assert xs[..i] == xs;
  }

  /** Appends `flag value` when the value is non-empty. */
  method AppendValued(args: seq<string>, flag: string, value: string) returns (r: seq<string>)
    ensures value == "" ==> r == args
    ensures value != "" ==> r == args + [flag, value]
  {
    r := args;
    if value != "" {
      r := r + [flag, value];
    }
  }

  /** Appends the bare flag when it is switched on. */
  method AppendSwitch(args: seq<string>, flag: string, on: bool) returns (r: seq<string>)
    ensures on ==> r == args + [flag]
    ensures !on ==> r == args
  {
    r := args;
    if on {
      r := r + [flag];
    }
  }

  /** Appends the valued options whose fields are non-empty, in their fixed order. */
  method AppendOptions(args: seq<string>, a: Applet, expand: string -> string) returns (r: seq<string>)
    ensures r == args + OptionArgs(a, expand)
  {
    var name := Valued(NameFlag, a.name);
    var workDir := Guarded(WorkDirFlag, a.workDir != "", expand(a.workDir));
    var entrypoint := Valued(EntrypointFlag, a.entrypoint);
    var restart := Valued(RestartFlag, a.restart);
    var network := Valued(NetworkFlag, a.network);
    r := AppendValued(args, NameFlag, a.name);
    assert r == args + name;
    if a.workDir != "" {
      r := r + [WorkDirFlag, expand(a.workDir)];
    }
    assert r == args + name + workDir;
    r := AppendValued(r, EntrypointFlag, a.entrypoint);
    assert r == args + name + workDir + entrypoint;
    r := AppendValued(r, RestartFlag, a.restart);
    assert r == args + name + workDir + entrypoint + restart;
    r := AppendValued(r, NetworkFlag, a.network);
    assert r == args + name + workDir + entrypoint + restart + network;
    AppendFive(args, name, workDir, entrypoint, restart, network);
  }

  /** Appends the bare flags that are switched on, in their fixed order. */
  method AppendSwitches(args: seq<string>, a: Applet, attached: bool) returns (r: seq<string>)
    ensures r == args + SwitchArgs(a, attached)
  {
    var rm := Switch(RmFlag, a.rm);
    var interactive := Switch(InteractiveFlag, a.interactive);
    var privileged := Switch(PrivilegedFlag, a.privileged);
    var detach := Switch(DetachFlag, a.detach);
    var tty := Switch(TtyFlag, attached && a.tty);
    r := AppendSwitch(args, RmFlag, a.rm);
    assert r == args + rm;
    r := AppendSwitch(r, InteractiveFlag, a.interactive);
    assert r == args + rm + interactive;
    r := AppendSwitch(r, PrivilegedFlag, a.privileged);
    assert r == args + rm + interactive + privileged;
    r := AppendSwitch(r, DetachFlag, a.detach);
    assert r == args + rm + interactive + privileged + detach;
    r := AppendSwitch(r, TtyFlag, attached && a.tty);
    assert r == args + rm + interactive + privileged + detach + tty;
    AppendFive(args, rm, interactive, privileged, detach, tty);
  }

  /** The run vector built step by step, the way the Go `RunCmd` appends to its slice. */
  method BuildRunArgs(
    a: Applet, attached: bool, hostEnv: seq<string>,
    matchString: (string, string) -> MatchResult, expand: string -> string,
    extra: seq<string>)
    returns (args: seq<string>)
    ensures args == RunArgs(a, attached, hostEnv, matchString, expand, extra)
  {
    args := AppendOptions([RunVerb], a, expand);
    args := AppendSwitches(args, a, attached);
    AppendAssoc([RunVerb], OptionArgs(a, expand), SwitchArgs(a, attached));
    var flags := args;
    ghost var built: seq<string> := [];
    if a.allEnvs {
      args := AppendMatching(args, matchString, a.envFilter, hostEnv);
    }
    built := Pairs(EnvFlag, Forwarded(a, hostEnv, matchString));
    assert args == flags + built;
    args := AppendExpanded(args, EnvFlag, a.env, expand);
    AppendAssoc(flags, built, Pairs(EnvFlag, Expanded(expand, a.env)));
    built := built + Pairs(EnvFlag, Expanded(expand, a.env));
    args := AppendExpanded(args, VolumeFlag, a.volumes, expand);
    AppendAssoc(flags, built, Pairs(VolumeFlag, Expanded(expand, a.volumes)));
    built := built + Pairs(VolumeFlag, Expanded(expand, a.volumes));
    args := AppendVerbatim(args, PortFlag, a.ports);
    AppendAssoc(flags, built, Pairs(PortFlag, a.ports));
    built := built + Pairs(PortFlag, a.ports);
    args := AppendVerbatim(args, EnvFileFlag, a.envFile);
    AppendAssoc(flags, built, Pairs(EnvFileFlag, a.envFile));
    built := built + Pairs(EnvFileFlag, a.envFile);
    args := AppendVerbatim(args, LinkFlag, a.links);
    AppendAssoc(flags, built, Pairs(LinkFlag, a.links));
    built := built + Pairs(LinkFlag, a.links);
    assert built == ListArgs(a, hostEnv, matchString, expand);
    args := args + [a.image + ":" + a.tag];
    if |a.command| != 0 && |extra| == 0 {
      args := args + a.command;
    } else {
      args := args + extra;
    }
  }
}
