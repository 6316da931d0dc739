/**
  `src/core/config.py`, a second copy of the configuration manager: the same
  `get` and `create_dict`, but only four section getters (no `assets` or
  `camera`).
 */
module CoreConfig {
  import opened Results
  import opened Config

  /** `ConfigManager.get` of this copy: the stored value at the dotted key, else `default` (`None` unless given). */
  method Get(config: Value, key: string, default: Value := Null) returns (r: Value)
    ensures Lookup(config, Split(key)).Some? ==> r == Lookup(config, Split(key)).value
    ensures Lookup(config, Split(key)).None? ==> r == default
  {
    r := Config.Get(config, key, default);
  }

  /** The directory selection of this copy's `create_dict`. */
  method DirectoriesToCreate(config: Value) returns (r: Result<set<Value>, ConfigError>)
    ensures !config.Dict? <==> r == Err(RootNotMapping)
    ensures config.Dict? && "paths" !in config.entries ==> r == Ok({})
    ensures r == Err(PathsNotMapping) <==>
              config.Dict? && "paths" in config.entries && !config.entries["paths"].Dict?
    ensures r.Ok? && "paths" in config.entries ==>
              forall dir :: dir in r.value <==>
                exists k :: k in config.entries["paths"].entries
                         && Contributes(config.entries["paths"].entries[k], dir)
  {
    r := Config.DirectoriesToCreate(config);
  }

  /** `get_api_config(service)`: the value at `api.<service>`, or `{}`. */
  method ApiConfig(config: Value, service: string) returns (r: Value)
    ensures r == Lookup(config, ["api"] + Split(service)).GetOr(EmptyDict)
  {
    r := NestedSection(config, "api", service);
  }

  /** `get_path_config()`: the top-level `paths` entry, or `{}`. */
  method PathConfig(config: Value) returns (r: Value)
    ensures config.Dict? && "paths" in config.entries ==> r == config.entries["paths"]
    ensures !(config.Dict? && "paths" in config.entries) ==> r == EmptyDict
  {
    r := Section(config, "paths");
  }

  /** `get_robot_config()`: the top-level `robot` entry, or `{}`. */
  method RobotConfig(config: Value) returns (r: Value)
    ensures config.Dict? && "robot" in config.entries ==> r == config.entries["robot"]
    ensures !(config.Dict? && "robot" in config.entries) ==> r == EmptyDict
  {
    r := Section(config, "robot");
  }

  /** `get_logging_config()`: the top-level `logging` entry, or `{}`. */
  method LoggingConfig(config: Value) returns (r: Value)
    ensures config.Dict? && "logging" in config.entries ==> r == config.entries["logging"]
    ensures !(config.Dict? && "logging" in config.entries) ==> r == EmptyDict
  {
    r := Section(config, "logging");
  }
}
