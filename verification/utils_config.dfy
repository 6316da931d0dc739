/**
  The section getters of `src/utils/config.py`, each a fixed-key `get` with
  the default `{}`. The lookup itself is `Config.Get`.
 */
module UtilsConfig {
  import opened Config

  /** `get_api_config(service)`: the value at `api.<service>`, or `{}`. */
  method ApiConfig(config: Value, service: string) returns (r: Value)
    ensures r == Lookup(config, ["api"] + Split(service)).GetOr(EmptyDict)
  {
    r := NestedSection(config, "api", service);
  }

  /** `get_path_config()`: the top-level `paths` entry, or `{}`. */
  method PathConfig(config: Value) returns (r: Value)
    ensures config.Dict? && "paths" in config.entries ==> r == config.entries["paths"]
    ensures !(config.Dict? && "paths" in config.entries) ==> r == EmptyDict
  {
    r := Section(config, "paths");
  }

  /** `get_robot_config()`: the top-level `robot` entry, or `{}`. */
  method RobotConfig(config: Value) returns (r: Value)
    ensures config.Dict? && "robot" in config.entries ==> r == config.entries["robot"]
    ensures !(config.Dict? && "robot" in config.entries) ==> r == EmptyDict
  {
    r := Section(config, "robot");
  }

  /** `get_logging_config()`: the top-level `logging` entry, or `{}`. */
  method LoggingConfig(config: Value) returns (r: Value)
    ensures config.Dict? && "logging" in config.entries ==> r == config.entries["logging"]
    ensures !(config.Dict? && "logging" in config.entries) ==> r == EmptyDict
  {
    r := Section(config, "logging");
  }

  /** `get_assets_config()`: the top-level `assets` entry, or `{}`. */
  method AssetsConfig(config: Value) returns (r: Value)
    ensures config.Dict? && "assets" in config.entries ==> r == config.entries["assets"]
    ensures !(config.Dict? && "assets" in config.entries) ==> r == EmptyDict
  {
    r := Section(config, "assets");
  }

  /** `get_camera_config()`: the top-level `camera` entry, or `{}`. */
  method CameraConfig(config: Value) returns (r: Value)
    ensures config.Dict? && "camera" in config.entries ==> r == config.entries["camera"]
    ensures !(config.Dict? && "camera" in config.entries) ==> r == EmptyDict
  {
    r := Section(config, "camera");
  }
}
