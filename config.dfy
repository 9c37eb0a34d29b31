/** `Config` (src/core/config.py): typed getters over the parsed settings file, each a
    two-level `dict.get` lookup with a fixed default. */
module Configuration {
  import opened Wrappers
  import opened Python

  /** A value `yaml.safe_load` can produce. */
  datatype Yaml =
    | Mapping(entries: map<string, Yaml>)
    | Sequence(items: seq<Yaml>)
    | Str(s: string)
    | Int(i: int)
    | Float(f: real)
    | Bool(b: bool)
    | Null

  /** `self._config`, assigned once by `__init__`. */
  datatype Config = Config(data: Yaml)

  /** `section` (or `key` inside it) is missing, so `.get` falls back to its default. */
  predicate Absent(c: Config, section: string, key: string) {
    && c.data.Mapping?
    && (section !in c.data.entries
        || (c.data.entries[section].Mapping? && key !in c.data.entries[section].entries))
  }

  /** `key` is configured inside the mapping `section`. */
  predicate Present(c: Config, section: string, key: string) {
    && c.data.Mapping?
    && section in c.data.entries
    && c.data.entries[section].Mapping?
    && key in c.data.entries[section].entries
  }

  function Configured(c: Config, section: string, key: string): Yaml
    requires Present(c, section, key)
  {
    c.data.entries[section].entries[key]
  }

  /** `__init__`: the parsed file, or `{}` when no file is found at the path or under
      the working directory. */
  function Load(file: Option<Yaml>): (c: Config)
    ensures file.None? ==> forall section, key :: Absent(c, section, key)
    ensures file.Some? ==> c.data == file.value
  {
    match file
    case None => Config(Mapping(map[]))
    case Some(y) => Config(y)
  }

  /** A getter: look up the section (an empty mapping when it is missing), then the
      key in it, falling back to the default. Calling `.get` on a parsed value that
      is not a mapping (an empty file parses to None) raises AttributeError. */
  function Get(c: Config, section: string, key: string, default: Yaml): (r: Result<Yaml, Exception>)
    ensures Absent(c, section, key) ==> r == Success(default)
    ensures Present(c, section, key) ==> r == Success(Configured(c, section, key))
    ensures r.Failure? <==> !Absent(c, section, key) && !Present(c, section, key)
    ensures r.Failure? ==> r.error == AttributeError
  {
    if !c.data.Mapping? then Failure(AttributeError)
    else
      var sec := if section in c.data.entries then c.data.entries[section] else Mapping(map[]);
      if !sec.Mapping? then Failure(AttributeError)
      else if key in sec.entries then Success(sec.entries[key])
      else Success(default)
  }

  function PoseModelPath(c: Config): (r: Result<Yaml, Exception>)
    ensures Absent(c, "model", "pose_path") ==> r == Success(Str("models/clock_pose_v1.pt"))
    ensures Present(c, "model", "pose_path") ==> r == Success(Configured(c, "model", "pose_path"))
  {
    Get(c, "model", "pose_path", Str("models/clock_pose_v1.pt"))
  }

  function PoseConf(c: Config): (r: Result<Yaml, Exception>)
    ensures Absent(c, "model", "pose_conf") ==> r == Success(Float(0.5))
    ensures Present(c, "model", "pose_conf") ==> r == Success(Configured(c, "model", "pose_conf"))
  {
    Get(c, "model", "pose_conf", Float(0.5))
  }

  function DigitModelPath(c: Config): (r: Result<Yaml, Exception>)
    ensures Absent(c, "model", "digit_path") ==> r == Success(Str("models/digit_rec_v1.pt"))
    ensures Present(c, "model", "digit_path") ==> r == Success(Configured(c, "model", "digit_path"))
  {
    Get(c, "model", "digit_path", Str("models/digit_rec_v1.pt"))
  }

  function DigitConf(c: Config): (r: Result<Yaml, Exception>)
    ensures Absent(c, "model", "digit_conf") ==> r == Success(Float(0.5))
    ensures Present(c, "model", "digit_conf") ==> r == Success(Configured(c, "model", "digit_conf"))
  {
    Get(c, "model", "digit_conf", Float(0.5))
  }

  function CameraId(c: Config): (r: Result<Yaml, Exception>)
    ensures Absent(c, "camera", "id") ==> r == Success(Int(0))
    ensures Present(c, "camera", "id") ==> r == Success(Configured(c, "camera", "id"))
  {
    Get(c, "camera", "id", Int(0))
  }

  function CameraWidth(c: Config): (r: Result<Yaml, Exception>)
    ensures Absent(c, "camera", "width") ==> r == Success(Int(640))
    ensures Present(c, "camera", "width") ==> r == Success(Configured(c, "camera", "width"))
  {
    Get(c, "camera", "width", Int(640))
  }

  function CameraHeight(c: Config): (r: Result<Yaml, Exception>)
    ensures Absent(c, "camera", "height") ==> r == Success(Int(480))
    ensures Present(c, "camera", "height") ==> r == Success(Configured(c, "camera", "height"))
  {
    Get(c, "camera", "height", Int(480))
  }

  /** `(warp_width, warp_height)`, each looked up on its own. */
  function WarpSize(c: Config): (r: Result<(Yaml, Yaml), Exception>)
    ensures Absent(c, "processing", "warp_width") && Absent(c, "processing", "warp_height")
      ==> r == Success((Int(320), Int(128)))
    ensures Present(c, "processing", "warp_width") && Present(c, "processing", "warp_height")
      ==> r == Success((Configured(c, "processing", "warp_width"), Configured(c, "processing", "warp_height")))
  {
    var w :- Get(c, "processing", "warp_width", Int(320));
    var h :- Get(c, "processing", "warp_height", Int(128));
    Success((w, h))
  }

  function DebugMode(c: Config): (r: Result<Yaml, Exception>)
    ensures Absent(c, "app", "debug_mode") ==> r == Success(Bool(true))
    ensures Present(c, "app", "debug_mode") ==> r == Success(Configured(c, "app", "debug_mode"))
  {
    Get(c, "app", "debug_mode", Bool(true))
  }

  /** A missing settings file makes every getter return its default. */
  lemma MissingFileGivesDefaults()
    ensures var c := Load(None);
      && PoseModelPath(c) == Success(Str("models/clock_pose_v1.pt"))
      && PoseConf(c) == Success(Float(0.5))
      && DigitModelPath(c) == Success(Str("models/digit_rec_v1.pt"))
      && DigitConf(c) == Success(Float(0.5))
      && CameraId(c) == Success(Int(0))
      && CameraWidth(c) == Success(Int(640))
      && CameraHeight(c) == Success(Int(480))
      && WarpSize(c) == Success((Int(320), Int(128)))
      && DebugMode(c) == Success(Bool(true))
  {
  }

  /** The warp width and height are defaulted independently: a configured width is
      kept when the height falls back to 128, and the other way round. */
  lemma WarpSizeComponentsIndependent(c: Config)
    ensures Present(c, "processing", "warp_width") && Absent(c, "processing", "warp_height") ==>
      WarpSize(c) == Success((Configured(c, "processing", "warp_width"), Int(128)))
    ensures Absent(c, "processing", "warp_width") && Present(c, "processing", "warp_height") ==>
      WarpSize(c) == Success((Int(320), Configured(c, "processing", "warp_height")))
    ensures Absent(c, "processing", "warp_width") && Absent(c, "processing", "warp_height") ==>
      WarpSize(c) == Success((Int(320), Int(128)))
    ensures Present(c, "processing", "warp_width") && Present(c, "processing", "warp_height") ==>
      WarpSize(c) == Success((Configured(c, "processing", "warp_width"), Configured(c, "processing", "warp_height")))
  {
  }

}
