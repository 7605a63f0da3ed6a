# west-env container bridge, in Dafny

A model of the core of `west-env`: the `west env` extension command for
Zephyr's `west`. The command runs `init`, `build`, `shell` and `doctor`
either on the host or inside a docker or podman container, with the west
workspace bind-mounted at `/work`.

What is modelled:

- **Engine choice** (`Engine`). An explicitly named engine must be on the
  search path. Under `auto`, or with no preference, docker is chosen before
  podman, and the caller is warned when both are present.
- **Container invocation** (`Container`):
  - the host working directory is mapped into the container;
  - the exact argument vector of `<engine> run` is built;
  - the doctor's engine and image check.
- **Configuration** (`Config`). `west-env.yml` is read with a default for
  every key, and every value is kept exactly as found.
- **Host checks** (`Util`): the Python version (at least 3.10) and the
  presence of `west`.
- **The command** (`EnvCommand`):
  - the manifest location is read from `.west/config`;
  - the workspace is validated before every `init`, `build` or `shell`
    container run, with a fatal
    report listing all problems;
  - the doctor runs its checks and gives a verdict;
  - the dispatch of the four actions.

The host is one value, `Environment.Host`. It holds everything the program
learns by calling out:
- the executables `which` finds;
- the argument vectors that exit with status 0;
- the existing directories and files;
- the resolved workspace root and current directory;
- the parsed `.west/config` and `west-env.yml`;
- the Python version.

Every operation is a function of this value. Commands that would be
executed are returned as argument vectors.

The code has these quirks, each modelled as written:
- the default engine is `docker`, not `auto`;
- `west-env.yml` is read from the current directory;
- a missing image is not rejected when the configuration loads; it fails
  only when the invocation is handed to the engine;
- when the current directory is the workspace itself, the working directory
  is `/work/.`;
- the doctor's workspace-visibility probe always runs `docker`, whatever
  engine is configured;
- `lstrip("./")` strips a set of characters, not a prefix, so a manifest
  directory `../x` becomes `x`;
- the container command is joined with single spaces and not quoted.

## Model

| member | source | states |
|---|---|---|
| Engine.ContainerEngine.Command | west_env/engine.py:11-12 | the engine's name followed by exactly the given arguments |
| Engine.DetectEngine | west_env/engine.py:19-37 | a named preference succeeds iff it is available, and then with no warning. Otherwise docker is preferred to podman, the warning is raised iff both are present, and failure happens iff neither is. The chosen name is always available. |
| Engine.Preference | west_env/engine.py:19-23 | None, an empty string and an empty mapping all mean auto detection. A scalar is passed on unchanged. A non-empty mapping is the TypeError `which` raises. |
| Engine.GetEngine | west_env/engine.py:40-42 | the detected name wrapped as an engine, with the warning flag passed on; every detection error propagates |
| Engine.AutoPrefersDocker | west_env/engine.py:28-29 | under auto with both engines present, docker is picked with a warning |
| Engine.AutoSingleEngine | west_env/engine.py:31-35 | under auto with exactly one engine present, that engine is picked with no warning |
| Engine.DefaultEngineIsExplicit | west_env/config.py:10 | the default configuration never detects: it succeeds iff docker is available, and never warns |
| Config.FromData | west_env/config.py:4-10 | succeeds iff the document, its `env` and its `container` are mappings. Each field is the nested lookup with its default: type "native", container {}, image None, engine "docker". |
| Config.LoadConfig | west_env/config.py:12-20 | with no file, the defaults. An unparsable file gives the parser's error. Otherwise, the document's configuration. |
| Config.NoEnvSection | west_env/config.py:6-10 | a document without `env` gives exactly the defaults |
| Config.PresentValuesKept | west_env/config.py:6-10 | values that are present are taken unchanged, whatever they are |
| Util.TupleLessLexicographic | west_env/util.py:15 | the recursive tuple comparison is Python's lexicographic order: `a < b` iff the two agree up to a position where `a` ends or holds the smaller element, both directions |
| Util.ExtensionNotLess | west_env/util.py:15 | Python tuple order: a tuple that extends another is never smaller than it |
| Util.CheckPython | west_env/util.py:13-25 | fails exactly on versions before 3.10, whatever the micro version |
| Util.CheckWest | west_env/util.py:28-35 | true iff `west --version` exits successfully; failure is never raised |
| Container.RelativeTo | west_env/container.py:24 | defined iff the workspace is a component-wise prefix of the cwd; the workspace followed by the result is the cwd |
| Container.ContainerWd | west_env/container.py:23-27 | always starts with `/work`. Below the workspace: `/work/` followed by the relative components. The workspace itself: `/work/.`. Outside it: `/work`. |
| Container.ContainerWdSegments | west_env/container.py:23-27 | for a resolved cwd, the segments are "", "work", then exactly the cwd's components below the workspace; no segment is `..`, so the mapping never escapes the mount point |
| Container.ShellCommand | west_env/container.py:54-65 | the shell command is the git preparation, then ` && exec `, then the command joined with single spaces and no quoting |
| Container.RunContainer | west_env/container.py:11-68 | engine errors propagate, and a non-string image fails. Otherwise the result is exactly the invocation `Describes` fixes, carrying the both-engines warning. |
| Container.Assembled | west_env/container.py:32-66 | the fixed options, then `-it` when interactive, the image, and `sh -c` with the git preparation, make the described invocation |
| Container.DescribesOne | west_env/container.py:32-66 | the description determines the argument vector completely |
| Container.CheckContainer | west_env/container.py:71-100 | passes iff the engine resolves, its `--version` probe succeeds and an image is configured (truthy). It reports the engine, the warning and whether the image is local. |
| Container.MissingImageOnlyWarns | west_env/container.py:90-100 | the outcome of `image inspect` never changes whether the check passes |
| Paths.NormalizeResolved | west_commands/env.py:42 | resolving an already resolved path changes nothing |
| Paths.AppendName | west_commands/env.py:51 | joining a plain name appends it as the last component |
| Paths.AppendDot | west_commands/env.py:51 | joining "." leaves the path unchanged |
| EnvCommand.ReadManifestLocation | west_commands/env.py:22-37 | fails iff `.west/config` cannot be parsed. Path and file are taken from `[manifest]` when present, and are "." and "west.yml" otherwise. |
| EnvCommand.ManifestPathResolved | west_commands/env.py:51 | below a resolved workspace, the resolved manifest path is made of proper names only, wherever `path` and `file` point |
| Paths.AppendPieces | west_commands/env.py:51 | `base / s` adds only pieces of `s` that are not empty, not "." and hold no "/" |
| Paths.NormalizePieces | west_commands/env.py:51 | resolving keeps only components that were there, and never ".." |
| EnvCommand.ManifestProblem | west_commands/env.py:49-55 | no manifest problem iff `.west/config` parses and the resolved manifest is a file. An unparsable config gives "failed to read .west/config: " and the parser's error. A missing manifest gives "manifest not found at " and the resolved path, and no manifest problem is ever the `.west` problem. |
| EnvCommand.DefaultManifestPath | west_commands/env.py:50-51 | with the default location, the manifest is `west.yml` directly in the workspace |
| EnvCommand.WorkspaceProblems | west_commands/env.py:40-55 | one problem per failed check and no other: the count is the number of failed checks, and the `.west` problem is listed iff `.west` is not a directory. It comes first, and the manifest problem comes last. |
| EnvCommand.BothProblemsReported | west_commands/env.py:45-55 | both checks always run: missing `.west` and a missing manifest give exactly two problems |
| EnvCommand.Bullets | west_commands/env.py:58 | one `"  - "` line per problem, in order |
| EnvCommand.ReportLines | west_commands/env.py:57-65 | when the heading, hint, topdir and every problem are single lines: split at newlines, the report is the heading, the topdir line, "Problems:", one bullet per problem, an empty line, the hint, and a trailing empty piece |
| EnvCommand.FatalReportLines | west_commands/env.py:57-65 | when the topdir and every problem are single lines: split at newlines, the `SystemExit` message is "FATAL: invalid west workspace", the topdir line, "Problems:", one bullet per problem, an empty line, the hint, and a trailing empty piece |
| EnvCommand.HeadingLine | west_commands/env.py:60 | the fatal heading is a single line |
| EnvCommand.HintLine | west_commands/env.py:64 | the hint is a single line |
| EnvCommand.ValidateWorkspaceLayout | west_commands/env.py:40-65 | valid iff `.west` exists and the manifest is found. Otherwise the result is invalid, with all problems and the fatal report over them. |
| EnvCommand.RStrip | west_commands/env.py:176 | the result is a prefix that does not end in the character, and only that character was removed |
| EnvCommand.LStrip | west_commands/env.py:176 | the result is a suffix whose first character is outside the set, and only characters from the set were removed |
| EnvCommand.ManifestRel | west_commands/env.py:176 | a suffix of `<dir without trailing />/<file>` that starts with neither "." nor "/"; only those characters were removed |
| EnvCommand.ManifestRelDefaultDir | west_commands/env.py:176 | with the default directory ".", the relative manifest is the file name |
| EnvCommand.ManifestRelPlainDir | west_commands/env.py:176 | a plain directory gives `<dir>/<file>`, whatever trailing slashes it had |
| EnvCommand.ManifestRelDropsParent | west_commands/env.py:176 | a directory `../<dir>` loses its `../` |
| EnvCommand.Without | west_commands/env.py:107 | with the token `--container`: the token is gone, every other argument keeps its count, and the list is untouched when the token is absent |
| EnvCommand.WithoutConcat | west_commands/env.py:107 | the filter distributes over concatenation, so the kept arguments stay in order |
| EnvCommand.VisibilityProbe | west_commands/env.py:179-192 | the probe always runs `docker`, with the configured image |
| EnvCommand.WorkspaceVisible | west_commands/env.py:165-202 | raises iff `.west/config` cannot be parsed, with the parser's error unchanged. Otherwise true iff the image is a string and the docker probe for `.west` and the manifest succeeds. |
| EnvCommand.VisibilityIgnoresEngine | west_commands/env.py:179-192 | the configured engine plays no part in the visibility result |
| EnvCommand.ContainerModeChoice | west_commands/env.py:105-106 | the `--container` flag forces container mode. Without it, container mode holds iff the configured `env.type` is exactly "container". |
| EnvCommand.ContainerCommand | west_commands/env.py:109-128 | the command a container runs for each action: `true` for init, `west build` followed by the passed-through arguments for build, and `/bin/bash` for shell |
| EnvCommand.DoctorChecks | west_commands/env.py:146-163 | crashes iff container mode is on and `.west/config` cannot be parsed: the crash carries the parser's error and the records of the three checks before it. Otherwise every check of the mode runs, in order, and the verdict is their conjunction. |
| EnvCommand.DoctorVerdict | west_commands/env.py:146-163 | the verdict holds iff every check of the mode passes |
| EnvCommand.DoRun | west_commands/env.py:104-133 | a configuration error is passed on unchanged, and doctor passes on the doctor's outcome (crash, its error and records, or verdict). Native mode runs `west build <args without --container>` or `bash` on the host, and `init` only reports. In container mode, validation precedes every container run, and an invalid workspace gives the fatal report. A valid one gives the described invocation, carrying the both-engines warning, iff the engine resolves and the image is a string. Otherwise it gives exactly `RunContainer`'s error. |

## Left out

- Running commands and printing. Probes are looked up in the host's set of
  succeeding argument vectors, and the commands that would run are returned
  instead.
- `west_topdir()` failing outside a workspace. The workspace root is a field
  of the host.
- `Path.resolve()` through symbolic links. Resolution is lexical: `..`
  removes a component and never climbs above the root.
- The special meaning of a leading `//` in a path.
- `configparser`'s `DEFAULT` section, key lower-casing and `%`
  interpolation errors. The file is either a parse error or its sections.
- YAML sequences. A list in `west-env.yml` has no representation here; in
  the source it fails like a non-empty mapping: `AttributeError` on `.get`,
  and `TypeError` as the engine or image.
- YAML scalars other than strings. Integers and booleans are represented by
  their text, so their truthiness is that of the text. In the source a
  non-string engine makes `which` raise `TypeError`, and a non-string image
  makes `check_call` raise it. The model uses the text instead, so
  `engine: true` resolves to an executable named `true`.
- The `inspect.signature` and `TypeError` fallback in `_run_container`.
  Both paths pass `interactive` through unchanged. When `run_container`
  raises `TypeError` (a non-string image reaching `check_call`), the
  fallback calls it a second time, which prints the both-engines warning
  again and raises the same error. The model gives that error once.
- Argument parsing, the command's registration with west, and the
  `sys.path` set-up.
- Exit statuses and the exact text of warnings.
- `sys.version_info` beyond the micro version. The release level and serial
  are not modelled.
- `run_host`: host commands are returned as argument vectors, not run.
- Subprocess timing, concurrency and signal handling: none of them occurs
  in this code.
