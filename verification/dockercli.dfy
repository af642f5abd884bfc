/**
 * A reader for the argument vectors the compiler produces. It accepts the
 * options only in the compiler's fixed order. Reading a compiled vector back
 * gives the request it encodes (`RunArgsReadBack`), and that request
 * determines the vector (`RunArgsPinned`); this is how the properties of the
 * compiler are stated. The request is not the whole record: the filter
 * settings, `kill`, `dependencies`, the fields before expansion and the split
 * of the image reference into image and tag do not survive compilation.
 */
module DockerCli {
  import opened Wrappers
  import opened AppletConfig
  import opened ArgVector
  import opened Compiler

  /** What a run vector asks the container runtime to do. */
  datatype RunRequest = RunRequest(
    name: Option<string>,
    workDir: Option<string>,
    entrypoint: Option<string>,
    restart: Option<string>,
    network: Option<string>,
    rm: bool,
    interactive: bool,
    privileged: bool,
    detach: bool,
    tty: bool,
    env: seq<string>,
    volumes: seq<string>,
    ports: seq<string>,
    envFiles: seq<string>,
    links: seq<string>,
    image: string,
    command: seq<string>)

  /** How a valued option is read back: present with its value exactly when the value is non-empty. */
  function Present(value: string): Option<string>
  {
    if value != "" then Some(value) else None
  }

  /** The target of a kill vector. */
  function ParseKill(args: seq<string>): Option<string>
  {
    if |args| == 2 && args[0] == KillVerb then Some(args[1]) else None
  }

  /** Reads the valued options, in their fixed order. */
  function ReadOptions(ts: seq<string>): (Option<string>, Option<string>, Option<string>, Option<string>, Option<string>, seq<string>)
  {
    var (name, t1) := TakeValued(NameFlag, ts);
    var (workDir, t2) := TakeValued(WorkDirFlag, t1);
    var (entrypoint, t3) := TakeValued(EntrypointFlag, t2);
    var (restart, t4) := TakeValued(RestartFlag, t3);
    var (network, t5) := TakeValued(NetworkFlag, t4);
    (name, workDir, entrypoint, restart, network, t5)
  }

  /** Reads the bare flags, in their fixed order. */
  function ReadSwitches(ts: seq<string>): (bool, bool, bool, bool, bool, seq<string>)
  {
    var (rm, t1) := TakeSwitch(RmFlag, ts);
    var (interactive, t2) := TakeSwitch(InteractiveFlag, t1);
    var (privileged, t3) := TakeSwitch(PrivilegedFlag, t2);
    var (detach, t4) := TakeSwitch(DetachFlag, t3);
    var (tty, t5) := TakeSwitch(TtyFlag, t4);
    (rm, interactive, privileged, detach, tty, t5)
  }

  /** Reads the repeated options, each kind as one contiguous run, in their fixed order. */
  function ReadLists(ts: seq<string>): (seq<string>, seq<string>, seq<string>, seq<string>, seq<string>, seq<string>)
  {
    var (env, t1) := TakePairs(EnvFlag, ts);
    var (volumes, t2) := TakePairs(VolumeFlag, t1);
    var (ports, t3) := TakePairs(PortFlag, t2);
    var (envFiles, t4) := TakePairs(EnvFileFlag, t3);
    var (links, t5) := TakePairs(LinkFlag, t4);
    (env, volumes, ports, envFiles, links, t5)
  }

  /**
   * Reads a run vector: the verb, the options in order, then an image
   * reference that is not itself an option flag, then the command.
   */
  function ParseRun(args: seq<string>): Option<RunRequest>
  {
    if |args| == 0 || args[0] != RunVerb then None
    else
      var (name, workDir, entrypoint, restart, network, t1) := ReadOptions(args[1..]);
      var (rm, interactive, privileged, detach, tty, t2) := ReadSwitches(t1);
      var (env, volumes, ports, envFiles, links, t3) := ReadLists(t2);
      if |t3| == 0 || Stage(t3[0]) < OptionCount then None
      else
        Some(RunRequest(
          name, workDir, entrypoint, restart, network,
          rm, interactive, privileged, detach, tty,
          env, volumes, ports, envFiles, links,
          t3[0], t3[1..]))
  }

  /** ParseRun over a vector laid out as verb, valued options, bare flags, lists, then the rest. */
  lemma ParseRunOfGroups(options: seq<string>, switches: seq<string>, lists: seq<string>, rest: seq<string>, req: RunRequest)
    requires ReadOptions(options + (switches + (lists + rest)))
          == (req.name, req.workDir, req.entrypoint, req.restart, req.network, switches + (lists + rest))
    requires ReadSwitches(switches + (lists + rest))
          == (req.rm, req.interactive, req.privileged, req.detach, req.tty, lists + rest)
    requires ReadLists(lists + rest) == (req.env, req.volumes, req.ports, req.envFiles, req.links, rest)
    requires |rest| > 0 && Stage(rest[0]) == OptionCount && req.image == rest[0] && req.command == rest[1..]
    ensures ParseRun([RunVerb] + (options + (switches + (lists + rest)))) == Some(req)
  {
    var args := [RunVerb] + (options + (switches + (lists + rest)));
    assert args[1..] == options + (switches + (lists + rest));
  }

  lemma OptionStages()
    ensures Stage(NameFlag) == 0 && Stage(WorkDirFlag) == 1 && Stage(EntrypointFlag) == 2
    ensures Stage(RestartFlag) == 3 && Stage(NetworkFlag) == 4
  {
  }

  lemma SwitchStages()
    ensures Stage(RmFlag) == 5 && Stage(InteractiveFlag) == 6 && Stage(PrivilegedFlag) == 7
    ensures Stage(DetachFlag) == 8 && Stage(TtyFlag) == 9
  {
  }

  lemma ListStages()
    ensures Stage(EnvFlag) == 10 && Stage(VolumeFlag) == 11 && Stage(PortFlag) == 12
    ensures Stage(EnvFileFlag) == 13 && Stage(LinkFlag) == 14
  {
  }

  /** The sequence opens with a token that is no option flag of a stage before `k`. */
  predicate Opens(ts: seq<string>, k: nat)
  {
    |ts| > 0 && Stage(ts[0]) >= k
  }

  lemma GuardedStage(flag: string, present: bool, value: string, rest: seq<string>, k: nat)
    requires Stage(flag) == k && Opens(rest, k + 1)
    ensures TakeValued(flag, Guarded(flag, present, value) + rest) == (if present then Some(value) else None, rest)
    ensures Opens(Guarded(flag, present, value) + rest, k)
    ensures !present ==> Opens(Guarded(flag, present, value) + rest, k + 1)
  {
    GuardedRoundTrip(flag, present, value, rest);
    if !present {
      assert Guarded(flag, present, value) + rest == rest;
    }
  }

  lemma SwitchStage(flag: string, on: bool, rest: seq<string>, k: nat)
    requires Stage(flag) == k && Opens(rest, k + 1)
    ensures TakeSwitch(flag, Switch(flag, on) + rest) == (on, rest)
    ensures Opens(Switch(flag, on) + rest, k)
  {
    SwitchRoundTrip(flag, on, rest);
    if !on {
      assert Switch(flag, on) + rest == rest;
    }
  }

  lemma PairsStage(flag: string, xs: seq<string>, rest: seq<string>, k: nat)
    requires Stage(flag) == k && Opens(rest, k + 1)
    ensures TakePairs(flag, Pairs(flag, xs) + rest) == (xs, rest)
    ensures Opens(Pairs(flag, xs) + rest, k)
  {
    PairsRoundTrip(flag, xs, rest);
    if |xs| == 0 {
      assert Pairs(flag, xs) + rest == rest;
    }
  }

  /** No option flag contains a colon. */
  lemma FlagsHaveNoColon(t: string)
    requires Stage(t) < OptionCount
    ensures ':' !in t
  {
  }

  /** An image reference always contains a colon, so it is never mistaken for an option flag. */
  lemma ImageRefIsNoFlag(a: Applet, rest: seq<string>)
    ensures Opens([ImageRef(a)] + rest, OptionCount)
  {
    var s := ImageRef(a);
    assert s[|a.image|] == ':';
    if Stage(s) < OptionCount {
      FlagsHaveNoColon(s);
    }
  }

  lemma ReadOptionArgs(a: Applet, expand: string -> string, rest: seq<string>)
    requires Opens(rest, 5)
    ensures ReadOptions(OptionArgs(a, expand) + rest)
         == (Present(a.name), if a.workDir != "" then Some(expand(a.workDir)) else None,
             Present(a.entrypoint), Present(a.restart), Present(a.network), rest)
    ensures Opens(OptionArgs(a, expand) + rest, 0)
    ensures a.name == "" ==> Opens(OptionArgs(a, expand) + rest, 1)
  {
    OptionStages();
    var t5 := rest;
    var t4 := Valued(NetworkFlag, a.network) + t5;
    GuardedStage(NetworkFlag, a.network != "", a.network, t5, 4);
    var t3 := Valued(RestartFlag, a.restart) + t4;
    GuardedStage(RestartFlag, a.restart != "", a.restart, t4, 3);
    var t2 := Valued(EntrypointFlag, a.entrypoint) + t3;
    GuardedStage(EntrypointFlag, a.entrypoint != "", a.entrypoint, t3, 2);
    var t1 := Guarded(WorkDirFlag, a.workDir != "", expand(a.workDir)) + t2;
    GuardedStage(WorkDirFlag, a.workDir != "", expand(a.workDir), t2, 1);
    var t0 := Valued(NameFlag, a.name) + t1;
    GuardedStage(NameFlag, a.name != "", a.name, t1, 0);
    Regroup(Valued(NameFlag, a.name), Guarded(WorkDirFlag, a.workDir != "", expand(a.workDir)),
      Valued(EntrypointFlag, a.entrypoint), Valued(RestartFlag, a.restart), Valued(NetworkFlag, a.network), rest);
  }

  lemma ReadSwitchArgs(a: Applet, attached: bool, rest: seq<string>)
    requires Opens(rest, 10)
    ensures ReadSwitches(SwitchArgs(a, attached) + rest)
         == (a.rm, a.interactive, a.privileged, a.detach, attached && a.tty, rest)
    ensures Opens(SwitchArgs(a, attached) + rest, 5)
  {
    SwitchStages();
    var t5 := rest;
    var t4 := Switch(TtyFlag, attached && a.tty) + t5;
    SwitchStage(TtyFlag, attached && a.tty, t5, 9);
    var t3 := Switch(DetachFlag, a.detach) + t4;
    SwitchStage(DetachFlag, a.detach, t4, 8);
    var t2 := Switch(PrivilegedFlag, a.privileged) + t3;
    SwitchStage(PrivilegedFlag, a.privileged, t3, 7);
    var t1 := Switch(InteractiveFlag, a.interactive) + t2;
    SwitchStage(InteractiveFlag, a.interactive, t2, 6);
    var t0 := Switch(RmFlag, a.rm) + t1;
    SwitchStage(RmFlag, a.rm, t1, 5);
    Regroup(Switch(RmFlag, a.rm), Switch(InteractiveFlag, a.interactive), Switch(PrivilegedFlag, a.privileged),
      Switch(DetachFlag, a.detach), Switch(TtyFlag, attached && a.tty), rest);
  }

  lemma ReadListArgs(
    a: Applet, hostEnv: seq<string>, matchString: (string, string) -> MatchResult,
    expand: string -> string, rest: seq<string>)
    requires Opens(rest, OptionCount)
    ensures ReadLists(ListArgs(a, hostEnv, matchString, expand) + rest)
         == (Forwarded(a, hostEnv, matchString) + Expanded(expand, a.env),
             Expanded(expand, a.volumes), a.ports, a.envFile, a.links, rest)
    ensures Opens(ListArgs(a, hostEnv, matchString, expand) + rest, 10)
  {
    var envs := Forwarded(a, hostEnv, matchString) + Expanded(expand, a.env);
    ListStages();
    var t5 := rest;
    var t4 := Pairs(LinkFlag, a.links) + t5;
    PairsStage(LinkFlag, a.links, t5, 14);
    var t3 := Pairs(EnvFileFlag, a.envFile) + t4;
    PairsStage(EnvFileFlag, a.envFile, t4, 13);
    var t2 := Pairs(PortFlag, a.ports) + t3;
    PairsStage(PortFlag, a.ports, t3, 12);
    var t1 := Pairs(VolumeFlag, Expanded(expand, a.volumes)) + t2;
    PairsStage(VolumeFlag, Expanded(expand, a.volumes), t2, 11);
    var t0 := Pairs(EnvFlag, envs) + t1;
    PairsStage(EnvFlag, envs, t1, 10);
    PairsAppend(EnvFlag, Forwarded(a, hostEnv, matchString), Expanded(expand, a.env));
    Regroup(Pairs(EnvFlag, Forwarded(a, hostEnv, matchString)) + Pairs(EnvFlag, Expanded(expand, a.env)),
      Pairs(VolumeFlag, Expanded(expand, a.volumes)), Pairs(PortFlag, a.ports),
      Pairs(EnvFileFlag, a.envFile), Pairs(LinkFlag, a.links), rest);
  }

  /** The run vector laid out as its three option groups, the image and the command. */
  lemma RunArgsLayout(
    a: Applet, attached: bool, hostEnv: seq<string>,
    matchString: (string, string) -> MatchResult, expand: string -> string,
    extra: seq<string>)
    ensures RunArgs(a, attached, hostEnv, matchString, expand, extra)
         == [RunVerb] + (OptionArgs(a, expand) + (SwitchArgs(a, attached)
            + (ListArgs(a, hostEnv, matchString, expand) + ([ImageRef(a)] + TrailingArgs(a.command, extra)))))
  {
    Regroup([RunVerb], OptionArgs(a, expand), SwitchArgs(a, attached), ListArgs(a, hostEnv, matchString, expand),
      [ImageRef(a)], TrailingArgs(a.command, extra));
  }

  /**
   * The expected reading of a compiled run vector, field by field. It is the
   * request spelled out in the contract of `RunArgsReadBack`; the name lets
   * the layout proof hand it around.
   */
  function Expected(
    a: Applet, attached: bool, hostEnv: seq<string>,
    matchString: (string, string) -> MatchResult, expand: string -> string,
    extra: seq<string>): RunRequest
  {
    RunRequest(
      name := Present(a.name),
      workDir := if a.workDir != "" then Some(expand(a.workDir)) else None,
      entrypoint := Present(a.entrypoint),
      restart := Present(a.restart),
      network := Present(a.network),
      rm := a.rm,
      interactive := a.interactive,
      privileged := a.privileged,
      detach := a.detach,
      tty := attached && a.tty,
      env := Forwarded(a, hostEnv, matchString) + Expanded(expand, a.env),
      volumes := Expanded(expand, a.volumes),
      ports := a.ports,
      envFiles := a.envFile,
      links := a.links,
      image := a.image + ":" + a.tag,
      command := TrailingArgs(a.command, extra))
  }

  lemma ReadBackLayout(
    a: Applet, attached: bool, hostEnv: seq<string>,
    matchString: (string, string) -> MatchResult, expand: string -> string,
    extra: seq<string>)
    ensures ParseRun([RunVerb] + (OptionArgs(a, expand) + (SwitchArgs(a, attached)
              + (ListArgs(a, hostEnv, matchString, expand) + ([ImageRef(a)] + TrailingArgs(a.command, extra))))))
         == Some(Expected(a, attached, hostEnv, matchString, expand, extra))
  {
    var t3 := [ImageRef(a)] + TrailingArgs(a.command, extra);
    ImageRefIsNoFlag(a, TrailingArgs(a.command, extra));
    var t2 := ListArgs(a, hostEnv, matchString, expand) + t3;
    ReadListArgs(a, hostEnv, matchString, expand, t3);
    var t1 := SwitchArgs(a, attached) + t2;
    ReadSwitchArgs(a, attached, t2);
    ReadOptionArgs(a, expand, t1);
    ParseRunOfGroups(OptionArgs(a, expand), SwitchArgs(a, attached), ListArgs(a, hostEnv, matchString, expand), t3,
      Expected(a, attached, hostEnv, matchString, expand, extra));
  }

  /**
   * Reading a compiled run vector back gives every option of the record:
   * each valued option iff its field is non-empty, each bare flag iff its
   * field is set (`--tty` only with a terminal attached), the forwarded host
   * entries followed by the expanded `env` entries, the expanded volumes,
   * the verbatim ports, env files and links, exactly one image reference
   * `image:tag`, and the trailing command. The reader loses nothing
   * (`ParseRunLossless`), so this reading pins the vector, fixed order
   * included (`RunArgsPinned`).
   */
  lemma RunArgsReadBack(
    a: Applet, attached: bool, hostEnv: seq<string>,
    matchString: (string, string) -> MatchResult, expand: string -> string,
    extra: seq<string>)
    ensures ParseRun(RunArgs(a, attached, hostEnv, matchString, expand, extra))
         == Some(RunRequest(
              name := Present(a.name),
              workDir := if a.workDir != "" then Some(expand(a.workDir)) else None,
              entrypoint := Present(a.entrypoint),
              restart := Present(a.restart),
              network := Present(a.network),
              rm := a.rm,
              interactive := a.interactive,
              privileged := a.privileged,
              detach := a.detach,
              tty := attached && a.tty,
              env := Forwarded(a, hostEnv, matchString) + Expanded(expand, a.env),
              volumes := Expanded(expand, a.volumes),
              ports := a.ports,
              envFiles := a.envFile,
              links := a.links,
              image := a.image + ":" + a.tag,
              command := TrailingArgs(a.command, extra)))
  {
    RunArgsLayout(a, attached, hostEnv, matchString, expand, extra);
    ReadBackLayout(a, attached, hostEnv, matchString, expand, extra);
  }

  /** How `run --entrypoint "" i:` reads: an entrypoint that is given and empty, image `i:`, nothing else. */
  lemma ClearedEntrypointReading()
    ensures ParseRun([RunVerb, EntrypointFlag, "", "i:"])
         == Some(RunRequest(None, None, Some(""), None, None, false, false, false, false, false,
              [], [], [], [], [], "i:", []))
  {
    OptionStages();
    SwitchStages();
    ListStages();
    var rest := ["i:"];
    assert Stage("i:") == OptionCount;
    var ts := [EntrypointFlag, ""] + rest;
    assert ReadOptions(ts) == (None, None, Some(""), None, None, rest) by {
      GuardedStage(NetworkFlag, false, "", rest, 4);
      GuardedStage(RestartFlag, false, "", rest, 3);
      GuardedStage(EntrypointFlag, true, "", rest, 2);
      GuardedStage(WorkDirFlag, false, "", ts, 1);
      GuardedStage(NameFlag, false, "", ts, 0);
    }
    assert ReadSwitches(rest) == (false, false, false, false, false, rest) by {
      SwitchStage(TtyFlag, false, rest, 9);
      SwitchStage(DetachFlag, false, rest, 8);
      SwitchStage(PrivilegedFlag, false, rest, 7);
      SwitchStage(InteractiveFlag, false, rest, 6);
      SwitchStage(RmFlag, false, rest, 5);
    }
    assert ReadLists(rest) == ([], [], [], [], [], rest) by {
      PairsStage(LinkFlag, [], rest, 14);
      PairsStage(EnvFileFlag, [], rest, 13);
      PairsStage(PortFlag, [], rest, 12);
      PairsStage(VolumeFlag, [], rest, 11);
      PairsStage(EnvFlag, [], rest, 10);
    }
    ParseRunOfGroups([EntrypointFlag, ""], [], [], rest,
      RunRequest(None, None, Some(""), None, None, false, false, false, false, false,
        [], [], [], [], [], "i:", []));
    assert [RunVerb] + ([EntrypointFlag, ""] + ([] + ([] + rest))) == [RunVerb, EntrypointFlag, "", "i:"];
  }

  /**
   * `--entrypoint ""` clears the image's entrypoint, so it is not the same
   * request as leaving the option out; the compiler never emits it for an
   * empty field, and the reader keeps the two apart.
   */
  lemma EmptyValueIsNotAbsence(
    attached: bool, hostEnv: seq<string>,
    matchString: (string, string) -> MatchResult, expand: string -> string)
    ensures var cleared := ParseRun([RunVerb, EntrypointFlag, "", "i:"]);
      && cleared.Some? && cleared.value.entrypoint == Some("")
      && cleared != ParseRun(RunArgs(Zero.(image := "i"), attached, hostEnv, matchString, expand, []))
  {
    ClearedEntrypointReading();
    RunArgsReadBack(Zero.(image := "i"), attached, hostEnv, matchString, expand, []);
  }

  /** The vector a request is written as: the inverse direction of the reader. */
  function Render(q: RunRequest): seq<string>
  {
    [RunVerb] + (RenderOptions(q) + (RenderSwitches(q) + (RenderLists(q) + ([q.image] + q.command))))
  }

  /** The valued options of a request, in their fixed order. */
  function RenderOptions(q: RunRequest): seq<string>
  {
    Given(NameFlag, q.name) + Given(WorkDirFlag, q.workDir) + Given(EntrypointFlag, q.entrypoint)
    + Given(RestartFlag, q.restart) + Given(NetworkFlag, q.network)
  }

  /** The bare flags of a request, in their fixed order. */
  function RenderSwitches(q: RunRequest): seq<string>
  {
    Switch(RmFlag, q.rm) + Switch(InteractiveFlag, q.interactive) + Switch(PrivilegedFlag, q.privileged)
    + Switch(DetachFlag, q.detach) + Switch(TtyFlag, q.tty)
  }

  /** The repeated options of a request, each kind as one run, in their fixed order. */
  function RenderLists(q: RunRequest): seq<string>
  {
    Pairs(EnvFlag, q.env) + Pairs(VolumeFlag, q.volumes) + Pairs(PortFlag, q.ports)
    + Pairs(EnvFileFlag, q.envFiles) + Pairs(LinkFlag, q.links)
  }

  /** Reading the valued options loses nothing. */
  lemma ReadOptionsLossless(ts: seq<string>)
    ensures var r := ReadOptions(ts);
      Given(NameFlag, r.0) + Given(WorkDirFlag, r.1) + Given(EntrypointFlag, r.2)
      + Given(RestartFlag, r.3) + Given(NetworkFlag, r.4) + r.5 == ts
  {
    var (name, t1) := TakeValued(NameFlag, ts);
    TakeValuedLossless(NameFlag, ts);
    var (workDir, t2) := TakeValued(WorkDirFlag, t1);
    TakeValuedLossless(WorkDirFlag, t1);
    var (entrypoint, t3) := TakeValued(EntrypointFlag, t2);
    TakeValuedLossless(EntrypointFlag, t2);
    var (restart, t4) := TakeValued(RestartFlag, t3);
    TakeValuedLossless(RestartFlag, t3);
    var (network, t5) := TakeValued(NetworkFlag, t4);
    TakeValuedLossless(NetworkFlag, t4);
    Regroup(Given(NameFlag, name), Given(WorkDirFlag, workDir), Given(EntrypointFlag, entrypoint),
      Given(RestartFlag, restart), Given(NetworkFlag, network), t5);
  }

  /** Reading the bare flags loses nothing. */
  lemma ReadSwitchesLossless(ts: seq<string>)
    ensures var r := ReadSwitches(ts);
      Switch(RmFlag, r.0) + Switch(InteractiveFlag, r.1) + Switch(PrivilegedFlag, r.2)
      + Switch(DetachFlag, r.3) + Switch(TtyFlag, r.4) + r.5 == ts
  {
    var (rm, t1) := TakeSwitch(RmFlag, ts);
    TakeSwitchLossless(RmFlag, ts);
    var (interactive, t2) := TakeSwitch(InteractiveFlag, t1);
    TakeSwitchLossless(InteractiveFlag, t1);
    var (privileged, t3) := TakeSwitch(PrivilegedFlag, t2);
    TakeSwitchLossless(PrivilegedFlag, t2);
    var (detach, t4) := TakeSwitch(DetachFlag, t3);
    TakeSwitchLossless(DetachFlag, t3);
    var (tty, t5) := TakeSwitch(TtyFlag, t4);
    TakeSwitchLossless(TtyFlag, t4);
    Regroup(Switch(RmFlag, rm), Switch(InteractiveFlag, interactive), Switch(PrivilegedFlag, privileged),
      Switch(DetachFlag, detach), Switch(TtyFlag, tty), t5);
  }

  /** Reading the repeated options loses nothing. */
  lemma ReadListsLossless(ts: seq<string>)
    ensures var r := ReadLists(ts);
      Pairs(EnvFlag, r.0) + Pairs(VolumeFlag, r.1) + Pairs(PortFlag, r.2)
      + Pairs(EnvFileFlag, r.3) + Pairs(LinkFlag, r.4) + r.5 == ts
  {
    var (env, t1) := TakePairs(EnvFlag, ts);
    var (volumes, t2) := TakePairs(VolumeFlag, t1);
    var (ports, t3) := TakePairs(PortFlag, t2);
    var (envFiles, t4) := TakePairs(EnvFileFlag, t3);
    var (links, t5) := TakePairs(LinkFlag, t4);
    Regroup(Pairs(EnvFlag, env), Pairs(VolumeFlag, volumes), Pairs(PortFlag, ports),
      Pairs(EnvFileFlag, envFiles), Pairs(LinkFlag, links), t5);
  }

  /** The request an accepted run vector reads as, in terms of its three readers. */
  lemma ParseRunReading(args: seq<string>)
    requires ParseRun(args).Some?
    ensures var o := ReadOptions(args[1..]);
      var w := ReadSwitches(o.5);
      var l := ReadLists(w.5);
      && |args| > 0 && args[0] == RunVerb
      && |l.5| > 0
      && ParseRun(args).value == RunRequest(
           o.0, o.1, o.2, o.3, o.4, w.0, w.1, w.2, w.3, w.4,
           l.0, l.1, l.2, l.3, l.4, l.5[0], l.5[1..])
  {
  }

  /** The request an accepted run vector reads as, group by group. */
  lemma ParseRunValue(args: seq<string>)
    requires ParseRun(args).Some?
    ensures var q := ParseRun(args).value;
      var o := ReadOptions(args[1..]);
      var w := ReadSwitches(o.5);
      var l := ReadLists(w.5);
      && args == [RunVerb] + args[1..]
      && q.name == o.0 && q.workDir == o.1 && q.entrypoint == o.2 && q.restart == o.3 && q.network == o.4
      && q.rm == w.0 && q.interactive == w.1 && q.privileged == w.2 && q.detach == w.3 && q.tty == w.4
      && q.env == l.0 && q.volumes == l.1 && q.ports == l.2 && q.envFiles == l.3 && q.links == l.4
      && l.5 == [q.image] + q.command
  {
    ParseRunReading(args);
    HeadTail(ReadLists(ReadSwitches(ReadOptions(args[1..]).5).5).5);
    HeadTail(args);
  }

  /** The valued options read off `ts`, rendered again, give back the part of `ts` they were read from. */
  lemma OptionsRendered(ts: seq<string>, q: RunRequest)
    requires var r := ReadOptions(ts);
      q.name == r.0 && q.workDir == r.1 && q.entrypoint == r.2 && q.restart == r.3 && q.network == r.4
    ensures ts == RenderOptions(q) + ReadOptions(ts).5
  {
    ReadOptionsLossless(ts);
  }

  /** The bare flags read off `ts`, rendered again, give back the part of `ts` they were read from. */
  lemma SwitchesRendered(ts: seq<string>, q: RunRequest)
    requires var r := ReadSwitches(ts);
      q.rm == r.0 && q.interactive == r.1 && q.privileged == r.2 && q.detach == r.3 && q.tty == r.4
    ensures ts == RenderSwitches(q) + ReadSwitches(ts).5
  {
    ReadSwitchesLossless(ts);
  }

  /** The repeated options read off `ts`, rendered again, give back the part of `ts` they were read from. */
  lemma ListsRendered(ts: seq<string>, q: RunRequest)
    requires var r := ReadLists(ts);
      q.env == r.0 && q.volumes == r.1 && q.ports == r.2 && q.envFiles == r.3 && q.links == r.4
    ensures ts == RenderLists(q) + ReadLists(ts).5
  {
    ReadListsLossless(ts);
  }

  /** A request's rendering, assembled from its three option groups. */
  lemma RenderGroups(q: RunRequest, ts: seq<string>, t1: seq<string>, t2: seq<string>)
    requires ts == RenderOptions(q) + t1
    requires t1 == RenderSwitches(q) + t2
    requires t2 == RenderLists(q) + ([q.image] + q.command)
    ensures Render(q) == [RunVerb] + ts
  {
  }

  /** The reader loses nothing: every vector it accepts is the rendering of what it read. */
  lemma ParseRunLossless(args: seq<string>)
    requires ParseRun(args).Some?
    ensures Render(ParseRun(args).value) == args
  {
    var q := ParseRun(args).value;
    ParseRunValue(args);
    var ts := args[1..];
    var o := ReadOptions(ts);
    var w := ReadSwitches(o.5);
    OptionsRendered(ts, q);
    SwitchesRendered(o.5, q);
    ListsRendered(w.5, q);
    RenderGroups(q, ts, o.5, w.5);
  }

  /**
   * The reading of a compiled run vector determines the vector: no other
   * vector reads the same, so the reader's fixed order is the order the
   * compiler emits in.
   */
  lemma RunArgsPinned(
    a: Applet, attached: bool, hostEnv: seq<string>,
    matchString: (string, string) -> MatchResult, expand: string -> string,
    extra: seq<string>, v: seq<string>)
    ensures ParseRun(v) == ParseRun(RunArgs(a, attached, hostEnv, matchString, expand, extra))
        <==> v == RunArgs(a, attached, hostEnv, matchString, expand, extra)
  {
    var r := RunArgs(a, attached, hostEnv, matchString, expand, extra);
    if ParseRun(v) == ParseRun(r) {
      RunArgsReadBack(a, attached, hostEnv, matchString, expand, extra);
      ParseRunLossless(v);
      ParseRunLossless(r);
    }
  }

  /** The kill vector is `kill name` and nothing else; it is the only vector that reads as killing that name. */
  lemma KillArgsReadBack(a: Applet, args: seq<string>)
    ensures ParseKill(KillArgs(a)) == Some(a.name)
    ensures ParseKill(args) == Some(a.name) <==> args == KillArgs(a)
  {
    if ParseKill(args) == Some(a.name) {
      assert args == [args[0], args[1]];
    }
  }

  /** Two records kill the same container exactly when their names agree; no other field matters. */
  lemma KillArgsDependOnNameOnly(a: Applet, b: Applet)
    ensures KillArgs(a) == KillArgs(b) <==> a.name == b.name
  {
    if KillArgs(a) == KillArgs(b) {
      assert KillArgs(a)[1] == KillArgs(b)[1];
    }
  }

  /** Right after the verb comes `--name name` when the name is non-empty, and never `--name` otherwise. */
  lemma NameFollowsVerb(
    a: Applet, attached: bool, hostEnv: seq<string>,
    matchString: (string, string) -> MatchResult, expand: string -> string,
    extra: seq<string>)
    ensures var r := RunArgs(a, attached, hostEnv, matchString, expand, extra);
      && |r| >= 2
      && (r[1] == NameFlag <==> a.name != "")
      && (a.name != "" ==> |r| >= 3 && r[2] == a.name)
  {
    var t3 := [ImageRef(a)] + TrailingArgs(a.command, extra);
    ImageRefIsNoFlag(a, TrailingArgs(a.command, extra));
    var t2 := ListArgs(a, hostEnv, matchString, expand) + t3;
    ReadListArgs(a, hostEnv, matchString, expand, t3);
    var t1 := SwitchArgs(a, attached) + t2;
    ReadSwitchArgs(a, attached, t2);
    var t0 := OptionArgs(a, expand) + t1;
    ReadOptionArgs(a, expand, t1);
    RunArgsLayout(a, attached, hostEnv, matchString, expand, extra);
    var r := RunArgs(a, attached, hostEnv, matchString, expand, extra);
    assert r[1..] == t0;
    if a.name != "" {
      Regroup(Valued(NameFlag, a.name), Guarded(WorkDirFlag, a.workDir != "", expand(a.workDir)),
        Valued(EntrypointFlag, a.entrypoint), Valued(RestartFlag, a.restart), Valued(NetworkFlag, a.network), t1);
      assert t0[..2] == [NameFlag, a.name];
    }
  }

  /**
   * With `allEnvs` off the host environment, the filter and the search play
   * no part: the vector is the same for any of them.
   */
  lemma NoForwardingWithoutAllEnvs(
    a: Applet, attached: bool, hostEnv: seq<string>, otherEnv: seq<string>,
    matchString: (string, string) -> MatchResult, otherMatch: (string, string) -> MatchResult,
    filter: string, expand: string -> string, extra: seq<string>)
    requires !a.allEnvs
    ensures RunArgs(a, attached, hostEnv, matchString, expand, extra)
         == RunArgs(a.(envFilter := filter), attached, otherEnv, otherMatch, expand, extra)
  {
    assert Forwarded(a, hostEnv, matchString) == [];
    assert Forwarded(a.(envFilter := filter), otherEnv, otherMatch) == [];
    assert ListArgs(a, hostEnv, matchString, expand)
        == ListArgs(a.(envFilter := filter), otherEnv, otherMatch, expand);
  }

  /** With `allEnvs` off the only `-e` entries in the vector are the record's own, expanded. */
  lemma OnlyOwnEnvWithoutAllEnvs(
    a: Applet, attached: bool, hostEnv: seq<string>,
    matchString: (string, string) -> MatchResult, expand: string -> string, extra: seq<string>)
    requires !a.allEnvs
    ensures var p := ParseRun(RunArgs(a, attached, hostEnv, matchString, expand, extra));
      p.Some? && p.value.env == Expanded(expand, a.env)
  {
    RunArgsReadBack(a, attached, hostEnv, matchString, expand, extra);
    assert Forwarded(a, hostEnv, matchString) + Expanded(expand, a.env) == Expanded(expand, a.env);
  }

  /** A filter that does not compile forwards no host entry at all: a search error counts as no match. */
  lemma BadPatternForwardsNothing(a: Applet, hostEnv: seq<string>, matchString: (string, string) -> MatchResult)
    requires forall e :: matchString(a.envFilter, e) == BadPattern
    ensures Forwarded(a, hostEnv, matchString) == []
  {
    if a.allEnvs {
      NothingAccepted(matchString, a.envFilter, hostEnv);
    }
  }

  /** The `kill` and `dependencies` fields are declared but never read: neither vector depends on them. */
  lemma UnreadFields(
    a: Applet, kill: bool, dependencies: seq<string>, attached: bool, hostEnv: seq<string>,
    matchString: (string, string) -> MatchResult, expand: string -> string, extra: seq<string>)
    ensures var b := a.(kill := kill, dependencies := dependencies);
      && KillArgs(b) == KillArgs(a)
      && RunArgs(b, attached, hostEnv, matchString, expand, extra)
         == RunArgs(a, attached, hostEnv, matchString, expand, extra)
  {
  }

  /**
   * A document that leaves out rm, interactive, tty and the tag compiles to
   * a run vector with `--rm`, `--interactive`, `--tty` exactly when a
   * terminal is attached, and an image reference ending in ":latest".
   */
  lemma DefaultsReachRunVector(
    raw: RawApplet, attached: bool, hostEnv: seq<string>,
    matchString: (string, string) -> MatchResult, expand: string -> string, extra: seq<string>)
    requires raw.rm.None? && raw.interactive.None? && raw.tty.None? && raw.tag.None?
    ensures var p := ParseRun(RunArgs(ApplyDefaults(raw), attached, hostEnv, matchString, expand, extra));
      && p.Some?
      && p.value.rm
      && p.value.interactive
      && (p.value.tty <==> attached)
      && p.value.image == raw.image.GetOr("") + ":latest"
  {
    var a := ApplyDefaults(raw);
    AbsentKeysDefault(raw);
    RunArgsReadBack(a, attached, hostEnv, matchString, expand, extra);
    var p := ParseRun(RunArgs(a, attached, hostEnv, matchString, expand, extra));
    assert p.value.image == a.image + ":" + "latest";
    LatestSuffix(a.image);
  }

  lemma LatestSuffix(image: string)
    ensures image + ":" + "latest" == image + ":latest"
  {
    assert ":" + "latest" == ":latest";
  }

  /** A web server record with one port mapping, no command and no extra arguments. */
  const Web := Zero.(name := "web", image := "nginx", tag := "1.25", ports := ["8080:80"], rm := true)

  /** A web server record with one port mapping and `rm` on compiles to exactly this vector, whatever the terminal and host environment. */
  lemma WebExample(
    attached: bool, hostEnv: seq<string>,
    matchString: (string, string) -> MatchResult, expand: string -> string)
    ensures RunArgs(Web, attached, hostEnv, matchString, expand, [])
         == ["run", "--name", "web", "--rm", "-p", "8080:80", "nginx:1.25"]
  {
    assert OptionArgs(Web, expand) == ["--name", "web"];
    assert SwitchArgs(Web, attached) == ["--rm"];
    assert Pairs(PortFlag, Web.ports) == ["-p", "8080:80"];
    assert ListArgs(Web, hostEnv, matchString, expand) == ["-p", "8080:80"];
    assert ImageRef(Web) == "nginx:1.25";
  }
}
