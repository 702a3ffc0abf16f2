/**
 * Shared vocabulary of the configuration switcher: the records of
 * `types.rs`, the error kinds of `error.rs`, a JSON value type, the
 * serialisation library seen as a pair of functions, and the few string
 * helpers the services use on file names and paths.
 */
module Types {

  // ---------------------------------------------------------------------
  // Fixed-width integers of the source
  // ---------------------------------------------------------------------

  newtype u32 = x: int | 0 <= x < 0x1_0000_0000
  type u64 = x: int | 0 <= x < 0x1_0000_0000_0000_0000

  // ---------------------------------------------------------------------
  // Results and errors
  // ---------------------------------------------------------------------

  datatype Option<+T> = None | Some(value: T)

  /** The error kinds of `AppError`; the payload is the message text. */
  datatype AppError =
    | ClaudeNotFound
    | ConfigError(msg: string)
    | TrayError(msg: string)
    | FileSystemError(msg: string)
    | PermissionError(msg: string)
    | SettingsError(msg: string)
    | MonitorError(msg: string)
    | I18nError(msg: string)
    | IoError(msg: string)
    | JsonError(msg: string)

  /** `AppResult<T>`. */
  datatype Result<+T> = Ok(value: T) | Err(error: AppError)

  // ---------------------------------------------------------------------
  // JSON values and the serialisation library
  // ---------------------------------------------------------------------

  /**
   * A JSON value. Objects are maps, so two objects that list the same
   * members in a different order are the same value, as they are for
   * `serde_json::Value` equality. Numbers are integers only.
   */
  datatype Json =
    | JNull
    | JBool(b: bool)
    | JNum(n: int)
    | JStr(s: string)
    | JArr(items: seq<Json>)
    | JObj(fields: map<string, Json>)

  /**
   * The JSON library as the services use it: `parse` is `from_str`
   * (None for malformed text) and `pretty` is `to_string_pretty`.
   */
  datatype Codec = Codec(parse: string -> Option<Json>, pretty: Json -> string)

  /** Reading back what the pretty-printer wrote gives the same value. */
  ghost predicate Faithful(c: Codec) {
    forall v :: c.parse(c.pretty(v)) == Some(v)
  }

  // ---------------------------------------------------------------------
  // Records of types.rs
  // ---------------------------------------------------------------------

  type Path = string

  /** A profile: a named configuration file and whether it is the live one. */
  datatype Profile = Profile(name: string, path: Path, content: string, isActive: bool)

  /** A file fingerprint; `modifiedTime` is in seconds on the model's clock. */
  datatype FileMetadata = FileMetadata(modifiedTime: nat, checksum: u32, size: nat)

  /** The user's preferences. */
  datatype UserSettings = UserSettings(
    monitorIntervalMinutes: u64,
    autoStartMonitoring: bool,
    language: Option<string>,
    showNotifications: bool)

  /** `UserSettings::default()`. */
  function DefaultUserSettings(): (s: UserSettings)
    ensures s.monitorIntervalMinutes == 5 && s.language == None
    ensures s.autoStartMonitoring && s.showNotifications
  {
    UserSettings(5, true, None, true)
  }

  /** How a profile relates to the live settings. */
  datatype ProfileStatus = FullMatch | PartialMatch | NoMatch | Error(reason: string)

  datatype ChangeType = Modified | Created | Deleted

  datatype ConfigFileChange = ConfigFileChange(filePath: Path, changeType: ChangeType)

  datatype MonitoringStats = MonitoringStats(
    monitoredFilesCount: nat,
    cachedMetadataCount: nat,
    currentErrorCount: nat,
    isRunning: bool,
    intervalMinutes: nat,
    cacheSizeLimit: nat,
    maxScanErrors: nat)

  // ---------------------------------------------------------------------
  // String helpers
  // ---------------------------------------------------------------------

  predicate StartsWith(s: string, prefix: string) {
    |prefix| <= |s| && s[..|prefix|] == prefix
  }

  predicate EndsWith(s: string, suffix: string) {
    |suffix| <= |s| && s[|s| - |suffix|..] == suffix
  }

  /** A string that starts with `prefix` contains every character of it. */
  lemma StartsWithContains(s: string, prefix: string, c: char)
    requires StartsWith(s, prefix) && c in prefix
    ensures c in s
  {
    var i :| 0 <= i < |prefix| && prefix[i] == c;
    assert s[i] == s[..|prefix|][i];
  }

  /** Appending different suffixes to one base gives different strings. */
  lemma SuffixesDistinct(base: string, a: string, b: string)
    requires a != b
    ensures base + a != base + b
  {
    assert (base + a)[|base|..] == a;
    assert (base + b)[|base|..] == b;
  }

  function DigitChar(d: nat): char
    requires d < 10
  {
    "0123456789"[d]
  }

  /** The decimal text of `n`, as `format!("{}", n)` writes it. */
  function NatToString(n: nat): (s: string)
    ensures |s| >= 1
    ensures forall i :: 0 <= i < |s| ==> '0' <= s[i] <= '9'
    decreases n
  {
    if n < 10 then [DigitChar(n)] else NatToString(n / 10) + [DigitChar(n % 10)]
  }
}
