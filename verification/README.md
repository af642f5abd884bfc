# Docker applet invocation compiler

This project models the core of a small launcher for containerised "applets".
Each applet is a configuration record that says how to run one workload with
the `docker` executable. The modelled core turns such a record into the
argument vectors of two `docker` invocations:

- `docker kill <name>` stops any running container of that name;
- `docker run [options...] <image>:<tag> [command...]` launches the workload.

It also models the defaulting step applied when a record is decoded from the
configuration document.

The model is purely functional. Three things the Go launcher reads from the
process (`isTTY`, `os.Environ`, `os.ExpandEnv`) and one library call
(`regexp.MatchString`) become explicit parameters:

- `attached: bool` says whether standard input is a terminal (`isTTY`).
- `hostEnv: seq<string>` is the process environment (`os.Environ`).
- `matchString` is the regular-expression search. It returns `Found(b)` or
  `BadPattern`, and a bad pattern counts as no match, as the Go `RunCmd`
  does when it discards the error.
- `expand: string -> string` is `$VAR` substitution (`os.ExpandEnv`).

Modules:

- `Wrappers`: `Option` and `Result`.
- `AppletConfig`: the `Applet` record, the decoder's output `RawApplet` (one
  optional value per key) and the defaulting step `ApplyDefaults`.
- `ArgVector`: segment builders (`Valued` and `Guarded` for `flag value`,
  `Switch` for a bare flag, `Pairs` for repeated options, and `Expanded`,
  which substitutes each entry before it is paired) and three readers that
  take segments back off a token sequence: `TakeValued`, `TakeSwitch` and
  `TakePairs`. Each reader loses nothing: re-emitting what it read restores
  its input.
- `Compiler`: the flag constants, `KillArgs`/`KillCmd`, `RunArgs`/`RunCmd`,
  and `BuildRunArgs`. `BuildRunArgs` is the run vector built by appending
  step by step, with loops over the list fields like the Go `RunCmd`. It is
  proved equal to `RunArgs`.
- `DockerCli`: the partner of the compiler. It is a reader (`ParseRun`,
  `ParseKill`) that takes a vector apart. It accepts the options only in the
  compiler's fixed order and requires an image reference that is not an
  option flag. Most properties of the run vector are stated as
  "reading the compiled vector back gives this". The reader loses nothing,
  so that reading determines the vector.

Behaviour of the launcher worth knowing:

- The kill vector is emitted even for an empty name.
- The host-environment filter is `regexp.MatchString`, an unanchored search
  for a match anywhere in the entry. The model leaves the search abstract
  and does not assume anchoring.
- A filter that fails to compile makes each entry a non-match. It is not a
  failure of the whole step.

## Model

| member | source | states |
|---|---|---|
| AppletConfig.ApplyDefaults | repo/applet.go:71-85 | Every key present in the document keeps its decoded value, including an explicit `false` or "". A missing `rm`, `interactive` or `tty` is `true`, a missing tag is "latest", and every other missing field is its zero value. |
| AppletConfig.Unmarshal | repo/applet.go:79-84 | A decoder error is returned unchanged and no record is produced. Otherwise the result is the defaulted record. |
| AppletConfig.DefaultedIsUnique | repo/applet.go:71-85 | The defaulting rule leaves no freedom: two records that both satisfy it for the same document are equal. |
| AppletConfig.EmptyDocumentDefaults | repo/applet.go:73-78 | An empty document yields the zero record with `rm`, `interactive` and `tty` on and the tag "latest". |
| AppletConfig.AbsentKeysDefault | repo/applet.go:73-83 | For `rm`, `interactive`, `tty` and the tag, an absent key gives the default (`true`, or "latest") and a present key gives its decoded value; a missing image is "". |
| AppletConfig.ExplicitRoundTrip | repo/applet.go:79-83 | A document that states every key gives back exactly the record it states, so the defaults never override a given value. |
| ArgVector.Pairs | repo/applet.go:139-153 | A list option emits twice as many tokens as it has entries, opening with the flag followed by the first entry. |
| ArgVector.PairsAt | repo/applet.go:139-153 | Entry `i` of a list sits at position `2i+1`, right after its own copy of the flag, so declared order is kept. |
| ArgVector.PairsAppend | repo/applet.go:139-153 | Emitting pairs for a concatenation is emitting them for each part in turn. |
| ArgVector.Expanded | repo/applet.go:139-144 | Every `env` and `volumes` entry is substituted on its own, in order, and the count stays the same. |
| ArgVector.TakePairs | repo/applet.go:139-153 | Reading a run of pairs back and re-emitting them restores the input tokens exactly. |
| ArgVector.PairsRoundTrip | repo/applet.go:139-153 | A run of pairs followed by anything not led by the same flag reads back as exactly its entries. |
| ArgVector.GuardedRoundTrip | repo/applet.go:101-115 | An optional `flag value` reads back as its value, or as absent when it was left out, so `flag ""` differs from no flag at all. |
| ArgVector.SwitchRoundTrip | repo/applet.go:117-131 | A bare flag reads back as whether it was emitted. |
| Compiler.Matching | repo/applet.go:133-137 | An entry is kept iff it is a host entry and the search reports a match for it. A pattern error is never a match. The result is no longer than the environment. |
| Compiler.MatchingAppend | repo/applet.go:133-137 | Filtering is done entry by entry in host order: the kept entries of a concatenation are those of each part, in turn. |
| Compiler.NothingAccepted | repo/applet.go:134 | A filter that fails to compile keeps no host entry. |
| Compiler.Forwarded | repo/applet.go:132-138 | A host entry is forwarded iff `allEnvs` is set and the filter matches it. With `allEnvs` off nothing is forwarded, whatever the filter. |
| Compiler.TrailingArgs | repo/applet.go:157-161 | The arguments after the image are the caller's extra arguments when there are any, and otherwise the configured command. The suffix is empty iff both are empty. |
| Compiler.KillCmd | repo/applet.go:87-94 | The kill invocation runs `docker` with exactly two arguments, `kill` and the name, whatever the name is. |
| Compiler.RunArgs | repo/applet.go:96-161 | The run vector starts with `run`. It holds `image:tag` right before the trailing arguments and ends with exactly those trailing arguments. |
| Compiler.RunCmd | repo/applet.go:96-164 | The run invocation runs `docker` with `run` as its first argument. |
| Compiler.ExpansionScope | repo/applet.go:104-153 | Substitution reaches only the work directory and the `env` and `volumes` entries. Ports, env files, links, the image and the command pass through verbatim. |
| Compiler.AppendMatching | repo/applet.go:132-138 | The loop over the host environment appends one `-e entry` pair per accepted entry, in host order. |
| Compiler.AppendExpanded | repo/applet.go:139-144 | The loops over `env` and `volumes` append one `flag expand(entry)` pair per entry, in order. |
| Compiler.AppendVerbatim | repo/applet.go:145-153 | The loops over ports, env files and links append one `flag entry` pair per entry, verbatim and in order. |
| Compiler.AppendValued | repo/applet.go:101-103 | A valued option is appended iff its value is non-empty. |
| Compiler.AppendSwitch | repo/applet.go:117-119 | A bare flag is appended iff it is switched on. |
| Compiler.AppendOptions | repo/applet.go:101-115 | The five conditional appends produce `--name`, `--workdir`, `--entrypoint`, `--restart`, `--network`, in that order. |
| Compiler.AppendSwitches | repo/applet.go:117-131 | The five conditional appends produce `--rm`, `--interactive`, `--privileged`, `--detach`, `--tty`, in that order. `--tty` needs both the field and a terminal. |
| Compiler.BuildRunArgs | repo/applet.go:96-162 | The step-by-step appending builds exactly the run vector. |
| DockerCli.RunArgsReadBack | repo/applet.go:96-161 | Reading a compiled run vector back finds each of `--name`, `--workdir`, `--entrypoint`, `--restart`, `--network` present exactly when its field is non-empty, carrying the field (`--workdir` expanded), and absent otherwise; the reader tells a flag with an empty value apart from a missing one. It also finds each bare flag iff set (`--tty` only with a terminal), the forwarded host entries followed by the expanded `env` entries, the expanded volumes, the verbatim ports, env files and links, one image `image:tag` (even when both are empty) and the trailing arguments. The reader accepts options only in the fixed order. |
| DockerCli.RunArgsPinned | repo/applet.go:96-161 | A vector reads the same as a compiled run vector iff it is that vector: the reading fixes every token, so the option order of the compiler is the only one. |
| DockerCli.NameFollowsVerb | repo/applet.go:97-103 | The token right after `run` is `--name` iff the name is non-empty, and then the name comes next. |
| DockerCli.EmptyValueIsNotAbsence | repo/applet.go:107-109 | `run --entrypoint "" i:` reads back with an entrypoint that is present and empty, which is a different request from the vector compiled for a record with no entrypoint, where the option is left out. |
| DockerCli.KillArgsReadBack | repo/applet.go:87-93 | The kill vector reads back as killing the record's name. It is the only vector that does. |
| DockerCli.KillArgsDependOnNameOnly | repo/applet.go:87-93 | Two records give the same kill vector iff their names agree. |
| DockerCli.NoForwardingWithoutAllEnvs | repo/applet.go:132-138 | With `allEnvs` off, the run vector is the same for any host environment, search and filter. |
| DockerCli.OnlyOwnEnvWithoutAllEnvs | repo/applet.go:132-141 | With `allEnvs` off, the only `-e` entries are the record's own `env` entries, expanded. |
| DockerCli.BadPatternForwardsNothing | repo/applet.go:134 | A filter that does not compile forwards no host entry. |
| DockerCli.UnreadFields | repo/applet.go:14-41 | The declared `kill` and `dependencies` fields affect neither vector. |
| DockerCli.DefaultsReachRunVector | repo/applet.go:73-78 | A document without `rm`, `interactive`, `tty` and tag compiles to a run vector with `--rm` and `--interactive`, with `--tty` iff a terminal is attached, and with an image reference ending in `:latest`. |
| DockerCli.WebExample | repo/applet.go:96-164 | A record with name `web`, image `nginx`, tag `1.25`, port `8080:80`, `rm` on and nothing else compiles, with no extra arguments, to `run --name web --rm -p 8080:80 nginx:1.25`, whatever the terminal and host environment. |

## Left out

- `Exec` and `PreExec` (repo/applet.go:43-65) are left out. They start the process, wire the standard streams, wait for it, and wrap or print errors. All of that is operating-system I/O.
- `isTTY` (repo/applet.go:67-69) is a terminal query. It is the `attached` parameter.
- Regular-expression syntax and search are left out. `matchString` is an uninterpreted parameter, so what an empty pattern matches is not modelled.
- `os.ExpandEnv` is left out. `expand` is an uninterpreted parameter.
- YAML decoding is left out. The decoder's result is a `RawApplet` with one optional value per key, or an error string.
- The lookup of the `docker` executable on the search path is left out. A command is modelled as the program name and its arguments.
