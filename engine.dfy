/**
 * west_env/engine.py: choosing the container engine. `which` is the set of
 * executable names found on the host's search path.
 */
module Engine {
  import opened Results
  import opened Config

  /**
   * The RuntimeErrors `detect_engine` raises, and the TypeError `which`
   * raises when the configured engine is a non-empty mapping.
   */
  datatype EngineError = RequestedNotAvailable(requested: string) | NoEngineFound | NotAName

  /** `ContainerEngine`: its name is set once. */
  datatype ContainerEngine = ContainerEngine(name: string) {

    /** The argument vector `run(args)` hands to `subprocess.check_call`. */
    function Command(args: seq<string>): (argv: seq<string>)
      ensures |argv| == |args| + 1 && argv[0] == name && argv[1..] == args
    {
      [name] + args
    }
  }

  /** A preference naming an engine: Python truthiness rules out None and "", and "auto" asks for detection. */
  predicate Names(preferred: Option<string>) {
    preferred.Some? && preferred.value != "" && preferred.value != "auto"
  }

  /** `detect_engine(preferred)`: the engine's name and whether both engines were found under auto. */
  function DetectEngine(preferred: Option<string>, which: set<string>): (r: Result<(string, bool), EngineError>)
    ensures r.Success? ==> r.value.0 in which
    ensures Names(preferred) ==> (r.Success? <==> preferred.value in which)
    ensures Names(preferred) && r.Success? ==> r.value == (preferred.value, false)
    ensures Names(preferred) && r.Failure? ==> r.error == RequestedNotAvailable(preferred.value)
    ensures !Names(preferred) ==> (r.Failure? <==> "docker" !in which && "podman" !in which)
    ensures !Names(preferred) && r.Failure? ==> r.error == NoEngineFound
    ensures !Names(preferred) && r.Success? ==> r.value.0 == (if "docker" in which then "docker" else "podman")
    ensures r.Success? && r.value.1 <==> !Names(preferred) && "docker" in which && "podman" in which
  {
    var docker := "docker" in which;
    var podman := "podman" in which;
    if Names(preferred) then
      if preferred.value !in which then Failure(RequestedNotAvailable(preferred.value))
      else Success((preferred.value, false))
    else if docker && podman then Success(("docker", true))
    else if docker then Success(("docker", false))
    else if podman then Success(("podman", false))
    else Failure(NoEngineFound)
  }

  /**
   * The configured `engine` value as `detect_engine` receives it: None, a
   * string, or an empty mapping (falsy, so detection); a non-empty mapping
   * reaches `which` and raises.
   */
  function Preference(engine: Yaml): (r: Result<Option<string>, EngineError>)
    ensures r.Failure? <==> engine.Mapping? && engine.entries != map[]
    ensures engine.Scalar? ==> r == Success(Some(engine.text))
    ensures r.Success? && r.value.Some? ==> engine == Scalar(r.value.value)
  {
    match engine
    case Null => Success(None)
    case Scalar(text) => Success(Some(text))
    case Mapping(m) => if m == map[] then Success(None) else Failure(NotAName)
  }

  /** `get_engine(cfg_engine)`: the detected name wrapped in a `ContainerEngine`, the flag passed on. */
  function GetEngine(engine: Yaml, which: set<string>): (r: Result<(ContainerEngine, bool), EngineError>)
    ensures Preference(engine).Failure? ==> r == Failure(NotAName)
    ensures Preference(engine).Success? ==>
      var detected := DetectEngine(Preference(engine).value, which);
      && (r.Success? <==> detected.Success?)
      && (r.Success? ==> r.value.0.name == detected.value.0 && r.value.1 == detected.value.1)
      && (r.Failure? ==> r.error == detected.error)
  {
    match Preference(engine)
    case Failure(e) => Failure(e)
    case Success(preferred) =>
      match DetectEngine(preferred, which)
      case Failure(e) => Failure(e)
      case Success((name, warned)) => Success((ContainerEngine(name), warned))
  }

  /** Under auto with both engines present, docker is picked and the caller is warned. */
  lemma AutoPrefersDocker(preferred: Option<string>, which: set<string>)
    requires preferred == None || preferred == Some("") || preferred == Some("auto")
    requires "docker" in which && "podman" in which
    ensures DetectEngine(preferred, which) == Success(("docker", true))
  {
  }

  /** Under auto with exactly one engine present, that one is picked without a warning. */
  lemma AutoSingleEngine(preferred: Option<string>, which: set<string>)
    requires !Names(preferred)
    ensures "docker" in which && "podman" !in which ==> DetectEngine(preferred, which) == Success(("docker", false))
    ensures "podman" in which && "docker" !in which ==> DetectEngine(preferred, which) == Success(("podman", false))
  {
  }

  /** The default configuration (engine "docker") never detects: it needs docker itself. */
  lemma DefaultEngineIsExplicit(which: set<string>)
    ensures GetEngine(Defaults.engine, which).Success? <==> "docker" in which
    ensures GetEngine(Defaults.engine, which).Success? ==> GetEngine(Defaults.engine, which).value.1 == false
  {
  }
}
