/**
 * west_env/container.py: mapping the host's working directory into the
 * container, building the `run` invocation, and the doctor's engine and
 * image check.
 */
module Container {
  import opened Results
  import opened Paths
  import opened Config
  import opened Environment
  import opened Engine

  /** `CONTAINER_WORKDIR`: where the workspace is mounted inside the container. */
  const Workdir := "/work"

  const PythonPath := "PYTHONPATH=/work/modules/west-env"

  /** Marks the mounted workspace and its zephyr repository as safe for git. */
  const GitPrep := "git config --global --add safe.directory /work && git config --global --add safe.directory /work/zephyr"

  /** `cwd.relative_to(workspace)`: defined when `workspace` is a component-wise prefix of `cwd`. */
  function RelativeTo(cwd: Path, workspace: Path): (rel: Option<Path>)
    ensures rel.Some? <==> |workspace| <= |cwd| && cwd[..|workspace|] == workspace
    ensures rel.Some? ==> workspace + rel.value == cwd
  {
    if |workspace| <= |cwd| && cwd[..|workspace|] == workspace then Some(cwd[|workspace|..]) else None
  }

  /** The container's working directory for a host cwd: below the mount point, or the mount point itself. */
  function ContainerWd(workspace: Path, cwd: Path): (wd: string)
    ensures |wd| >= |Workdir| && wd[..|Workdir|] == Workdir
    ensures |workspace| < |cwd| && cwd[..|workspace|] == workspace ==>
      wd == Workdir + "/" + Join(cwd[|workspace|..], "/")
    ensures cwd == workspace ==> wd == "/work/."
    ensures !(|workspace| <= |cwd| && cwd[..|workspace|] == workspace) ==> wd == Workdir
  {
    match RelativeTo(cwd, workspace)
    case Some(rel) => Workdir + "/" + Posix(rel)
    case None => Workdir
  }

  /** The mount point itself splits into "" and "work". */
  lemma WorkdirSegments()
    ensures Split(Workdir, '/') == ["", "work"]
  {
    SplitWithout("work", '/');
    assert Workdir == "" + ['/'] + "work";
    SplitAround("", '/', "work");
  }

  /** A path below the mount point splits into "", "work" and the pieces of the part below it. */
  lemma BelowWorkdirSegments(below: string)
    ensures Split(Workdir + "/" + below, '/') == ["", "work"] + Split(below, '/')
  {
    SplitWithout("work", '/');
    assert Workdir + "/" + below == "" + ['/'] + ("work" + ['/'] + below);
    SplitAround("", '/', "work" + ['/'] + below);
    SplitAround("work", '/', below);
  }

  /**
   * For a resolved cwd, the working directory's "/"-separated segments are
   * "", "work" and then exactly the cwd's components below the workspace
   * ("." for the workspace itself); so no segment is "..".
   */
  lemma ContainerWdSegments(workspace: Path, cwd: Path)
    requires Resolved(cwd)
    ensures var segments := Split(ContainerWd(workspace, cwd), '/');
      && |segments| >= 2 && segments[..2] == ["", "work"]
      && (forall i :: 0 <= i < |segments| ==> segments[i] != "..")
      && (|workspace| < |cwd| && cwd[..|workspace|] == workspace ==> segments[2..] == cwd[|workspace|..])
  {
    var rest: seq<string>;
    match RelativeTo(cwd, workspace) {
      case None =>
        rest := [];
        WorkdirSegments();
      case Some(rel) =>
        BelowWorkdirSegments(Posix(rel));
        if |rel| == 0 {
          rest := ["."];
          SplitWithout(".", '/');
        } else {
          rest := rel;
          assert forall i :: 0 <= i < |rel| ==> rel[i] == cwd[|workspace| + i];
          SplitJoin(rel, '/');
        }
    }
    assert forall i :: 0 <= i < |rest| ==> rest[i] != "..";
    assert Split(ContainerWd(workspace, cwd), '/') == ["", "work"] + rest;
  }

  /**
   * The shell command run in the container: the git preparation, and only
   * if it succeeds, `exec` of the command joined with single spaces.
   */
  function ShellCommand(command: seq<string>): (sh: string)
    ensures |sh| == |GitPrep| + |" && exec "| + |Join(command, " ")|
    ensures sh[..|GitPrep|] == GitPrep
    ensures sh[|GitPrep|..|GitPrep| + |" && exec "|] == " && exec "
    ensures sh[|GitPrep| + |" && exec "|..] == Join(command, " ")
  {
    GitPrep + " && exec " + Join(command, " ")
  }

  /**
   * `argv` is the invocation of `engine` for the workspace, working
   * directory, image and command: the fixed prefix, `-it` right after it
   * when interactive, then image, `sh`, `-c` and the shell command.
   */
  predicate Describes(argv: seq<string>, engine: string, workspace: Path, wd: string, image: string,
                      command: seq<string>, interactive: bool)
  {
    && |argv| == (if interactive then 14 else 13)
    && argv[..9] == [engine, "run", "--rm", "-v", Text(workspace) + ":" + Workdir, "-w", wd, "-e", PythonPath]
    && (interactive ==> argv[9] == "-it")
    && argv[|argv| - 4..] == [image, "sh", "-c", ShellCommand(command)]
  }

  /** `Describes` leaves no freedom: it determines the argument vector. */
  lemma DescribesOne(a: seq<string>, b: seq<string>, engine: string, workspace: Path, wd: string,
                     image: string, command: seq<string>, interactive: bool)
    requires Describes(a, engine, workspace, wd, image, command, interactive)
    requires Describes(b, engine, workspace, wd, image, command, interactive)
    ensures a == b
  {
    forall i | 0 <= i < |a|
      ensures a[i] == b[i]
    {
      if i < 9 {
        assert a[i] == a[..9][i] && b[i] == b[..9][i];
      } else if i >= |a| - 4 {
        assert a[i] == a[|a| - 4..][i - (|a| - 4)] && b[i] == b[|b| - 4..][i - (|b| - 4)];
      }
    }
  }

  /** Why `run_container` raises: engine resolution, or an image that is not a string reaching `check_call`. */
  datatype RunError = EngineFailed(error: EngineError) | ImageNotAString

  /** What `run_container` hands to the engine, and whether it warned that both engines were found. */
  datatype Invocation = Invocation(argv: seq<string>, warnedBoth: bool)

  /** The image as an argument: only a string can be one. */
  function ImageArg(image: Yaml): Option<string> {
    if image.Scalar? then Some(image.text) else None
  }

  /** `run_container(cfg, command, interactive)`, returning the argument vector instead of running it. */
  method RunContainer(cfg: EnvConfig, command: seq<string>, interactive: bool, h: Host)
    returns (r: Result<Invocation, RunError>)
    ensures GetEngine(cfg.engine, h.executables).Failure? ==>
      r == Failure(EngineFailed(GetEngine(cfg.engine, h.executables).error))
    ensures GetEngine(cfg.engine, h.executables).Success? && !cfg.image.Scalar? ==> r == Failure(ImageNotAString)
    ensures r.Success? <==> GetEngine(cfg.engine, h.executables).Success? && cfg.image.Scalar?
    ensures r.Success? ==>
      var (engine, warned) := GetEngine(cfg.engine, h.executables).value;
      && r.value.warnedBoth == warned
      && Describes(r.value.argv, engine.name, h.topdir, ContainerWd(h.topdir, h.cwd), cfg.image.text,
                   command, interactive)
  {
    var resolved := GetEngine(cfg.engine, h.executables);
    if resolved.Failure? {
      return Failure(EngineFailed(resolved.error));
    }
    var (engine, warned) := resolved.value;
    var workspace := h.topdir;
    var containerWd := ContainerWd(workspace, h.cwd);

    var args := ["run", "--rm", "-v", Text(workspace) + ":" + Workdir, "-w", containerWd, "-e", PythonPath];
    if interactive {
      args := args + ["-it"];
    }
    var fullCmd := Join(command, " ");
    match ImageArg(cfg.image) {
      case None =>
        return Failure(ImageNotAString);
      case Some(image) =>
        var options := args;
        args := args + [image];
        args := args + ["sh", "-c", GitPrep + " && exec " + fullCmd];
        Assembled(engine, options, image, workspace, containerWd, command, interactive);
        r := Success(Invocation(engine.Command(args), warned));
    }
  }

  /** The options, then the image and the shell command, make up an invocation that `Describes` accepts. */
  lemma Assembled(engine: ContainerEngine, options: seq<string>, image: string, workspace: Path, wd: string,
                  command: seq<string>, interactive: bool)
    requires options == ["run", "--rm", "-v", Text(workspace) + ":" + Workdir, "-w", wd, "-e", PythonPath]
      + (if interactive then ["-it"] else [])
    ensures Describes(engine.Command(options + [image] + ["sh", "-c", GitPrep + " && exec " + Join(command, " ")]),
                      engine.name, workspace, wd, image, command, interactive)
  {
    var argv := engine.Command(options + [image] + ["sh", "-c", GitPrep + " && exec " + Join(command, " ")]);
    assert argv[..9] == [engine.name] + options[..8];
    assert argv[|argv| - 4..] == [image, "sh", "-c", ShellCommand(command)];
  }

  /** Python truthiness of a configured value. */
  predicate Truthy(y: Yaml) {
    match y
    case Null => false
    case Scalar(text) => text != ""
    case Mapping(m) => m != map[]
  }

  /** Why `check_container` returns False. */
  datatype CheckFailure = EngineUnusable(error: EngineError) | VersionProbeFailed(engine: string) | NoImageConfigured

  /**
   * The outcome of `check_container`: failed, or passed with the engine's
   * name, whether both engines were found, and whether the image is present
   * locally (its absence only warns).
   */
  datatype ContainerCheck = Failed(reason: CheckFailure) | Passed(engine: string, bothFound: bool, imageLocal: bool)

  /** `image inspect` succeeds for this engine and image; a non-string image makes it raise. */
  predicate ImageLocal(engine: string, image: Yaml, h: Host) {
    match ImageArg(image)
    case None => false
    case Some(name) => h.Runs([engine, "image", "inspect", name])
  }

  /** `check_container(cfg)` */
  function CheckContainer(cfg: EnvConfig, h: Host): (c: ContainerCheck)
    ensures c.Passed? <==>
      && GetEngine(cfg.engine, h.executables).Success?
      && h.Runs([GetEngine(cfg.engine, h.executables).value.0.name, "--version"])
      && Truthy(cfg.image)
    ensures GetEngine(cfg.engine, h.executables).Failure? ==>
      c == Failed(EngineUnusable(GetEngine(cfg.engine, h.executables).error))
    ensures c.Passed? ==>
      && c.engine == GetEngine(cfg.engine, h.executables).value.0.name
      && c.bothFound == GetEngine(cfg.engine, h.executables).value.1
      && c.imageLocal == ImageLocal(c.engine, cfg.image, h)
  {
    match GetEngine(cfg.engine, h.executables)
    case Failure(e) => Failed(EngineUnusable(e))
    case Success((engine, warned)) =>
      if !h.Runs([engine.name, "--version"]) then Failed(VersionProbeFailed(engine.name))
      else if !Truthy(cfg.image) then Failed(NoImageConfigured)
      else Passed(engine.name, warned, ImageLocal(engine.name, cfg.image, h))
  }

  /** A missing local image never fails the check: only the engine and a configured image decide. */
  lemma MissingImageOnlyWarns(cfg: EnvConfig, h: Host, h': Host)
    requires h'.executables == h.executables
    requires forall argv :: |argv| != 4 || argv[1] != "image" ==> (argv in h.succeeds <==> argv in h'.succeeds)
    ensures CheckContainer(cfg, h).Passed? <==> CheckContainer(cfg, h').Passed?
  {
    match GetEngine(cfg.engine, h.executables) {
      case Failure(_) =>
      case Success((engine, _)) =>
        var probe := [engine.name, "--version"];
        assert |probe| != 4;
    }
  }
}
