/**
  Where the daemon keeps its configuration and how the Anthropic API key is
  read from and written to it. The process environment and the operating
  system are a `Host` value; the file system is a map from path to what a
  read of that path yields.
*/
module Config {
  import opened Wrappers
  import opened Json
  import opened Paths

  datatype Host = Host(goos: string, env: map<string, string>)

  /** os.Getenv: an unset variable reads as the empty string. */
  function Getenv(h: Host, key: string): string {
    if key in h.env then h.env[key] else ""
  }

  predicate IsWindows(h: Host) {
    h.goos == "windows"
  }

  function Sep(h: Host): (sep: char)
    ensures ValidSep(sep)
  {
    if IsWindows(h) then '\\' else '/'
  }

  const HomeNotSet := "HOME environment variable not set"

  /** The directory the configuration directory is made under, before "rishi" is joined on. */
  function ConfigBase(h: Host): (r: Result<string, string>)
    ensures IsWindows(h) ==> r.Success?
    ensures r.Failure? <==> !IsWindows(h) && Getenv(h, "XDG_CONFIG_HOME") == "" && Getenv(h, "HOME") == ""
    ensures IsWindows(h) && Getenv(h, "APPDATA") != "" ==> r == Success(Getenv(h, "APPDATA"))
    ensures IsWindows(h) && Getenv(h, "APPDATA") == "" && Getenv(h, "LOCALAPPDATA") != "" ==>
      r == Success(Getenv(h, "LOCALAPPDATA"))
    ensures IsWindows(h) && Getenv(h, "APPDATA") == "" && Getenv(h, "LOCALAPPDATA") == "" ==>
      r == Success(Getenv(h, "HOME"))
    ensures !IsWindows(h) && Getenv(h, "XDG_CONFIG_HOME") != "" ==> r == Success(Getenv(h, "XDG_CONFIG_HOME"))
    ensures !IsWindows(h) && Getenv(h, "XDG_CONFIG_HOME") == "" && Getenv(h, "HOME") != "" ==>
      r == Success(Join(Getenv(h, "HOME"), ".config", Sep(h)))
    ensures r.Failure? ==> r.error == HomeNotSet
  {
    if IsWindows(h) then
      var appData := Getenv(h, "APPDATA");
      var base := if appData != "" then appData else Getenv(h, "LOCALAPPDATA");
      Success(if base != "" then base else Getenv(h, "HOME"))
    else
      var xdg := Getenv(h, "XDG_CONFIG_HOME");
      if xdg != "" then Success(xdg)
      else
        var home := Getenv(h, "HOME");
        if home == "" then Failure(HomeNotSet) else Success(Join(home, ".config", Sep(h)))
  }

  /** getConfigDir */
  function ConfigDir(h: Host): (r: Result<string, string>)
    ensures r.Failure? <==> ConfigBase(h).Failure?
    ensures r.Failure? ==> r.error == HomeNotSet
    ensures r.Success? ==> r.value == Join(ConfigBase(h).value, "rishi", Sep(h))
  {
    match ConfigBase(h)
    case Failure(e) => Failure(e)
    case Success(base) => Success(Join(base, "rishi", Sep(h)))
  }

  /** getConfigPath */
  function ConfigPath(h: Host): (r: Result<string, string>)
    ensures r.Failure? <==> ConfigDir(h).Failure?
    ensures r.Success? ==> r.value == Join(ConfigDir(h).value, "config.json", Sep(h))
  {
    match ConfigDir(h)
    case Failure(e) => Failure(e)
    case Success(dir) => Success(Join(dir, "config.json", Sep(h)))
  }

  /** The configuration directory's last element is "rishi". */
  lemma ConfigDirEndsInRishi(h: Host)
    requires ConfigDir(h).Success?
    ensures var d := ConfigDir(h).value;
      d == "rishi" || d == [Sep(h)] + "rishi" || exists p :: d == p + [Sep(h)] + "rishi" && p != ""
  {
    JoinNormalSuffix(ConfigBase(h).value, "rishi", Sep(h));
  }

  /** The configuration file sits directly in the configuration directory. */
  lemma ConfigPathInConfigDir(h: Host)
    requires ConfigPath(h).Success?
    ensures ConfigPath(h).value == ConfigDir(h).value + [Sep(h)] + "config.json"
  {
    JoinTwice(ConfigBase(h).value, "rishi", "config.json", Sep(h));
  }

  // ---------------------------------------------------------------- the file

  /** Config: the only setting is the API key, written only when non-empty. */
  datatype Config = Config(apiKey: string)

  const ConfigType := "Config"
  const ApiKeyField := "anthropic_api_key"

  function EncodeConfig(c: Config): (j: Json)
    ensures j.JObject? && (ApiKeyField in j.fields <==> c.apiKey != "")
  {
    if c.apiKey == "" then JObject(map[]) else JObject(map[ApiKeyField := JString(c.apiKey)])
  }

  /** json.Unmarshal into a fresh Config. */
  function DecodeConfig(p: Result<Json, string>): (r: Result<Config, string>)
    ensures p.Failure? ==> r == Failure(p.error)
    ensures p.Success? && p.value.JObject? ==>
      (r.Success? <==> StringField(p.value.fields, ConfigType, ApiKeyField).error.None?)
    ensures r.Success? && p.Success? && p.value.JObject? ==>
      r.value.apiKey == StringField(p.value.fields, ConfigType, ApiKeyField).value
  {
    match p
    case Failure(e) => Failure(e)
    case Success(JNull) => Success(Config(""))
    case Success(JObject(m)) =>
      var key := StringField(m, ConfigType, ApiKeyField);
      if key.error.Some? then Failure(key.error.value) else Success(Config(key.value))
    case Success(other) => Failure(ValueTypeError(other, "api." + ConfigType))
  }

  lemma ConfigRoundTrip(c: Config)
    ensures DecodeConfig(Success(EncodeConfig(c))) == Success(c)
  {
    if c.apiKey != "" {
      assert EncodeConfig(c).fields[ApiKeyField] == JString(c.apiKey);
    }
  }

  /** What reading a path that exists yields: an I/O error, or the bytes as the JSON decoder sees them. */
  datatype FileState = Unreadable(cause: string) | Present(content: Result<Json, string>)

  /** Paths absent from the map do not exist. */
  type Files = map<string, FileState>

  /** LoadConfig */
  function LoadConfig(h: Host, files: Files): (r: Result<Config, string>)
    ensures ConfigPath(h).Failure? ==> r == Failure(HomeNotSet)
    ensures ConfigPath(h).Success? && ConfigPath(h).value !in files ==> r == Success(Config(""))
    ensures ConfigPath(h).Success? && ConfigPath(h).value in files ==>
      match files[ConfigPath(h).value]
      case Unreadable(cause) => r == Failure("failed to read config file: " + cause)
      case Present(content) =>
        (DecodeConfig(content).Success? ==> r == DecodeConfig(content)) &&
        (DecodeConfig(content).Failure? ==> r == Failure("failed to parse config file: " + DecodeConfig(content).error))
  {
    match ConfigPath(h)
    case Failure(e) => Failure(e)
    case Success(path) =>
      if path !in files then Success(Config(""))
      else match files[path]
        case Unreadable(cause) => Failure("failed to read config file: " + cause)
        case Present(content) =>
          match DecodeConfig(content)
          case Failure(e) => Failure("failed to parse config file: " + e)
          case Success(c) => Success(c)
  }

  /** GetAPIKey */
  function GetAPIKey(h: Host, files: Files): (r: Result<string, string>)
    ensures r.Success? <==> LoadConfig(h, files).Success?
    ensures r.Success? ==> r.value == LoadConfig(h, files).value.apiKey
  {
    match LoadConfig(h, files)
    case Failure(e) => Failure(e)
    case Success(c) => Success(c.apiKey)
  }

  /** A saved configuration is what the next load reads. */
  lemma SavedConfigLoads(h: Host, files: Files, c: Config)
    requires ConfigPath(h).Success?
    ensures LoadConfig(h, files[ConfigPath(h).value := Present(Success(EncodeConfig(c)))]) == Success(c)
  {
    ConfigRoundTrip(c);
  }

  /** Loading only looks at the configuration file. */
  lemma LoadIgnoresOtherFiles(h: Host, files: Files, other: string, s: FileState)
    requires ConfigPath(h).Success? && other != ConfigPath(h).value
    ensures LoadConfig(h, files[other := s]) == LoadConfig(h, files)
  {
  }

  /** The step of SaveConfig's file I/O that fails, if any. */
  datatype SaveFault =
    | NoFault
    | MkdirFails(cause: string)
    | CreateTempFails(cause: string)
    | WriteFails(cause: string)
    | CloseFails(cause: string)
    /** Setting the temporary file's permissions fails: only logged, the save goes on. */
    | ChmodFails(cause: string)
    | RenameFails(cause: string)

  /** The error SaveConfig returns for a fault; none when it only warns. */
  function SaveError(fault: SaveFault): (e: Option<string>)
    ensures e.None? <==> fault.NoFault? || fault.ChmodFails?
  {
    match fault
    case NoFault => None
    case MkdirFails(c) => Some("failed to create config directory: " + c)
    case CreateTempFails(c) => Some("failed to create temp file: " + c)
    case WriteFails(c) => Some("failed to write config: " + c)
    case CloseFails(c) => Some("failed to close temp file: " + c)
    case ChmodFails(_) => None
    case RenameFails(c) => Some("failed to move config file: " + c)
  }

  /**
    The file system of the host the daemon runs on. Only the configuration
    file lives here: the temporary file SaveConfig writes is removed or
    renamed before it returns.
  */
  class FileStore {
    var files: Files

    constructor(initial: Files)
      ensures files == initial
    {
      files := initial;
    }

    /**
      SetAPIKey: load (falling back to an empty configuration), set the key,
      save. On success the configuration file holds exactly the new key; on
      any failure the files are as they were.
    */
    method SetAPIKey(h: Host, apiKey: string, fault: SaveFault) returns (err: Option<string>)
      modifies this
      ensures ConfigPath(h).Failure? ==> err == Some(HomeNotSet) && files == old(files)
      ensures ConfigPath(h).Success? ==> err == SaveError(fault)
      ensures err.Some? ==> files == old(files)
      ensures err.None? ==>
        files == old(files)[ConfigPath(h).value := Present(Success(EncodeConfig(Config(apiKey))))]
      ensures err.None? ==> LoadConfig(h, files) == Success(Config(apiKey))
    {
      var loaded := LoadConfig(h, files);
      var config := if loaded.Success? then loaded.value else Config("");
      config := config.(apiKey := apiKey);
      var dir := ConfigDir(h);
      if dir.Failure? {
        return Some(dir.error);
      }
      var path := ConfigPath(h);
      err := SaveError(fault);
      if err.None? {
        files := files[path.value := Present(Success(EncodeConfig(config)))];
        SavedConfigLoads(h, old(files), config);
      }
    }
  }
}
