/**
 * The applet record and the defaulting step applied when a configuration
 * entry is decoded.
 *
 * Decoding starts from a record in which `rm`, `interactive` and `tty` are
 * already `true` and `tag` is already "latest"; the decoder then overwrites
 * exactly the keys that are present in the document. The decoder itself is
 * not modelled: its output is a `RawApplet`, one optional value per key.
 */
module AppletConfig {
  import opened Wrappers

  /** How to launch one container workload. */
  datatype Applet = Applet(
    name: string,
    workDir: string,
    entrypoint: string,
    restart: string,
    network: string,
    envFilter: string,
    rm: bool,
    tty: bool,
    interactive: bool,
    privileged: bool,
    detach: bool,
    kill: bool,              // declared, never read by the compiler
    allEnvs: bool,
    env: seq<string>,
    volumes: seq<string>,
    ports: seq<string>,
    envFile: seq<string>,
    dependencies: seq<string>, // declared, never read by the compiler
    links: seq<string>,
    image: string,
    tag: string,
    command: seq<string>)

  /** What the decoder found in the document: `None` for an absent key. */
  datatype RawApplet = RawApplet(
    name: Option<string>,
    workDir: Option<string>,
    entrypoint: Option<string>,
    restart: Option<string>,
    network: Option<string>,
    envFilter: Option<string>,
    rm: Option<bool>,
    tty: Option<bool>,
    interactive: Option<bool>,
    privileged: Option<bool>,
    detach: Option<bool>,
    kill: Option<bool>,
    allEnvs: Option<bool>,
    env: Option<seq<string>>,
    volumes: Option<seq<string>>,
    ports: Option<seq<string>>,
    envFile: Option<seq<string>>,
    dependencies: Option<seq<string>>,
    links: Option<seq<string>>,
    image: Option<string>,
    tag: Option<string>,
    command: Option<seq<string>>)

  const DefaultTag := "latest"

  /** Every field at its zero value. */
  const Zero := Applet(
    name := "", workDir := "", entrypoint := "", restart := "", network := "", envFilter := "",
    rm := false, tty := false, interactive := false, privileged := false, detach := false,
    kill := false, allEnvs := false,
    env := [], volumes := [], ports := [], envFile := [], dependencies := [], links := [],
    image := "", tag := "", command := [])

  /** The record the decoder writes into: zero values except the four pre-filled fields. */
  const Preset := Zero.(rm := true, interactive := true, tty := true, tag := DefaultTag)

  /** A document in which no key is present. */
  const EmptyDocument := RawApplet(
    name := None, workDir := None, entrypoint := None, restart := None, network := None,
    envFilter := None, rm := None, tty := None, interactive := None, privileged := None,
    detach := None, kill := None, allEnvs := None,
    env := None, volumes := None, ports := None, envFile := None, dependencies := None,
    links := None, image := None, tag := None, command := None)

  /** `v` is the present value of `o`, or `default` when the key is absent. */
  predicate Settled<T(==)>(o: Option<T>, v: T, default: T)
  {
    if o.Some? then v == o.value else v == default
  }

  /**
   * The documented defaulting rule, key by key: a present key keeps its
   * decoded value (an explicit `false` or "" included); an absent key takes
   * `true` for rm/interactive/tty, "latest" for the tag and the zero value
   * everywhere else.
   */
  ghost predicate Defaulted(raw: RawApplet, a: Applet)
  {
    && Settled(raw.name, a.name, "")
    && Settled(raw.workDir, a.workDir, "")
    && Settled(raw.entrypoint, a.entrypoint, "")
    && Settled(raw.restart, a.restart, "")
    && Settled(raw.network, a.network, "")
    && Settled(raw.envFilter, a.envFilter, "")
    && Settled(raw.rm, a.rm, true)
    && Settled(raw.tty, a.tty, true)
    && Settled(raw.interactive, a.interactive, true)
    && Settled(raw.privileged, a.privileged, false)
    && Settled(raw.detach, a.detach, false)
    && Settled(raw.kill, a.kill, false)
    && Settled(raw.allEnvs, a.allEnvs, false)
    && Settled(raw.env, a.env, [])
    && Settled(raw.volumes, a.volumes, [])
    && Settled(raw.ports, a.ports, [])
    && Settled(raw.envFile, a.envFile, [])
    && Settled(raw.dependencies, a.dependencies, [])
    && Settled(raw.links, a.links, [])
    && Settled(raw.image, a.image, "")
    && Settled(raw.tag, a.tag, "latest")
    && Settled(raw.command, a.command, [])
  }

  /** Writes every present key of `raw` over `base`, leaving the other fields alone. */
  function Overlay(base: Applet, raw: RawApplet): Applet
  {
    base.(
      name := raw.name.GetOr(base.name),
      workDir := raw.workDir.GetOr(base.workDir),
      entrypoint := raw.entrypoint.GetOr(base.entrypoint),
      restart := raw.restart.GetOr(base.restart),
      network := raw.network.GetOr(base.network),
      envFilter := raw.envFilter.GetOr(base.envFilter),
      rm := raw.rm.GetOr(base.rm),
      tty := raw.tty.GetOr(base.tty),
      interactive := raw.interactive.GetOr(base.interactive),
      privileged := raw.privileged.GetOr(base.privileged),
      detach := raw.detach.GetOr(base.detach),
      kill := raw.kill.GetOr(base.kill),
      allEnvs := raw.allEnvs.GetOr(base.allEnvs),
      env := raw.env.GetOr(base.env),
      volumes := raw.volumes.GetOr(base.volumes),
      ports := raw.ports.GetOr(base.ports),
      envFile := raw.envFile.GetOr(base.envFile),
      dependencies := raw.dependencies.GetOr(base.dependencies),
      links := raw.links.GetOr(base.links),
      image := raw.image.GetOr(base.image),
      tag := raw.tag.GetOr(base.tag),
      command := raw.command.GetOr(base.command))
  }

  /** The defaulting step: decode over the pre-filled record. */
  function ApplyDefaults(raw: RawApplet): (a: Applet)
    ensures Defaulted(raw, a)
  {
    Overlay(Preset, raw)
  }

  /**
   * The whole decoding hook: a decoder error is returned unchanged and no
   * record is produced; otherwise the defaulted record.
   */
  function Unmarshal(decoded: Result<RawApplet, string>): (r: Result<Applet, string>)
    ensures decoded.Failure? ==> r == Failure(decoded.error)
    ensures decoded.Success? ==> r.Success? && Defaulted(decoded.value, r.value)
  {
    match decoded
    case Failure(e) => Failure(e)
    case Success(raw) => Success(ApplyDefaults(raw))
  }

  /** The defaulting rule leaves no freedom: it determines the record completely. */
  lemma DefaultedIsUnique(raw: RawApplet, a: Applet, b: Applet)
    requires Defaulted(raw, a) && Defaulted(raw, b)
    ensures a == b
  {
  }

  /** An empty document yields rm, interactive and tty on, tag "latest", all else zero. */
  lemma EmptyDocumentDefaults()
    ensures ApplyDefaults(EmptyDocument) == Zero.(rm := true, interactive := true, tty := true, tag := "latest")
  {
  }

  /** A key left out of the document takes its documented default; a key given keeps its decoded value. */
  lemma AbsentKeysDefault(raw: RawApplet)
    ensures raw.rm.None? ==> ApplyDefaults(raw).rm
    ensures raw.interactive.None? ==> ApplyDefaults(raw).interactive
    ensures raw.tty.None? ==> ApplyDefaults(raw).tty
    ensures raw.tag.None? ==> ApplyDefaults(raw).tag == "latest"
    ensures raw.rm.Some? ==> ApplyDefaults(raw).rm == raw.rm.value
    ensures raw.interactive.Some? ==> ApplyDefaults(raw).interactive == raw.interactive.value
    ensures raw.tty.Some? ==> ApplyDefaults(raw).tty == raw.tty.value
    ensures raw.tag.Some? ==> ApplyDefaults(raw).tag == raw.tag.value
    ensures ApplyDefaults(raw).image == raw.image.GetOr("")
  {
  }

  /** Every key of the record written out explicitly. */
  function Explicit(a: Applet): RawApplet
  {
    RawApplet(
      Some(a.name), Some(a.workDir), Some(a.entrypoint), Some(a.restart), Some(a.network),
      Some(a.envFilter), Some(a.rm), Some(a.tty), Some(a.interactive), Some(a.privileged),
      Some(a.detach), Some(a.kill), Some(a.allEnvs), Some(a.env), Some(a.volumes), Some(a.ports),
      Some(a.envFile), Some(a.dependencies), Some(a.links), Some(a.image), Some(a.tag),
      Some(a.command))
  }

  /** A document that states every key yields exactly the record it states: defaults never win. */
  lemma ExplicitRoundTrip(a: Applet)
    ensures ApplyDefaults(Explicit(a)) == a
  {
  }
}
