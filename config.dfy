/**
 * west_env/config.py: the environment configuration read from
 * `west-env.yml`. Every field is looked up in the YAML document with
 * `dict.get` and a default, and kept exactly as found.
 */
module Config {
  import opened Results

  /** A YAML value as `yaml.safe_load` returns it: None, a scalar (by its text) or a mapping. */
  datatype Yaml = Null | Scalar(text: string) | Mapping(entries: map<string, Yaml>)

  /** The contents of `west-env.yml`: no such file, a file YAML cannot parse, or its document. */
  datatype EnvFile = Absent | Unparsable(reason: string) | Document(data: Yaml)

  /**
   * Why building the configuration raised: `.get` called on a value that is
   * not a mapping (AttributeError), or the YAML parser's own error.
   */
  datatype ConfigError = NoGet(key: string) | YamlError(reason: string)

  datatype EnvConfig = EnvConfig(envType: Yaml, container: Yaml, image: Yaml, engine: Yaml)

  const EmptyMapping: Yaml := Mapping(map[])

  /** The configuration `EnvConfig({})` builds. */
  const Defaults: EnvConfig := EnvConfig(Scalar("native"), EmptyMapping, Null, Scalar("docker"))

  /** `y.get(key, default)` for a mapping `y`: the entry under `key`, or `default`. */
  function Entry(y: Yaml, key: string, default: Yaml): Yaml {
    if y.Mapping? && key in y.entries then y.entries[key] else default
  }

  /** `EnvConfig(data)`: each field from its nested lookup. */
  function FromData(data: Yaml): (r: Result<EnvConfig, ConfigError>)
    ensures r.Success? <==>
      && data.Mapping?
      && Entry(data, "env", EmptyMapping).Mapping?
      && Entry(Entry(data, "env", EmptyMapping), "container", EmptyMapping).Mapping?
    ensures r.Success? ==>
      var env := Entry(data, "env", EmptyMapping);
      var container := Entry(env, "container", EmptyMapping);
      && r.value.envType == Entry(env, "type", Scalar("native"))
      && r.value.container == container
      && r.value.image == Entry(container, "image", Null)
      && r.value.engine == Entry(container, "engine", Scalar("docker"))
  {
    // The two `data.get("env", {})` calls of the source give the same value.
    if !data.Mapping? then Failure(NoGet("env"))
    else
      var env := Entry(data, "env", EmptyMapping);
      if !env.Mapping? then Failure(NoGet("type"))
      else
        var container := Entry(env, "container", EmptyMapping);
        if !container.Mapping? then Failure(NoGet("image"))
        else
          Success(EnvConfig(
            Entry(env, "type", Scalar("native")),
            container,
            Entry(container, "image", Null),
            Entry(container, "engine", Scalar("docker"))))
  }

  /** `load_config()`: the defaults when there is no file. */
  function LoadConfig(file: EnvFile): (r: Result<EnvConfig, ConfigError>)
    ensures file.Absent? ==> r == Success(Defaults)
    ensures file.Unparsable? ==> r == Failure(YamlError(file.reason))
    ensures file.Document? ==> r == FromData(file.data)
  {
    match file
    case Absent => FromData(EmptyMapping)
    case Unparsable(reason) => Failure(YamlError(reason))
    case Document(data) => FromData(data)
  }

  /** A document without an `env` section configures native mode and the docker engine, with no image. */
  lemma NoEnvSection(data: Yaml)
    requires data.Mapping? && "env" !in data.entries
    ensures FromData(data) == Success(Defaults)
  {
  }

  /** Each present value is taken as it is, whatever it is. */
  lemma PresentValuesKept(envType: Yaml, image: Yaml, engine: Yaml)
    ensures
      var container := Mapping(map["image" := image, "engine" := engine]);
      var data := Mapping(map["env" := Mapping(map["type" := envType, "container" := container])]);
      FromData(data) == Success(EnvConfig(envType, container, image, engine))
  {
  }
}
