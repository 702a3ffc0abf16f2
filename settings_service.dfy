/**
 * The user-settings store of `settings_service.rs`: validation of the
 * preferences, their JSON form, and a service that keeps the current
 * preferences in memory and persists them to `cccs_settings.json` by
 * writing a temporary file and renaming it over the settings file.
 */
module Settings {
  import opened Types
  import opened Storage

  // ---------------------------------------------------------------------
  // Validation
  // ---------------------------------------------------------------------

  /** The languages a user may choose. */
  const SupportedLanguages: seq<string> := ["en", "zh", "zh-CN", "zh-TW"]

  /** `validate_monitor_interval`: the interval must lie in 1..=60 minutes. */
  function ValidateMonitorInterval(minutes: u64): (r: Result<()>)
    ensures r.Ok? <==> 1 <= minutes <= 60
    ensures r.Err? ==> r.error.SettingsError?
  {
    if !(1 <= minutes <= 60) then
      Err(SettingsError("Invalid monitor interval: " + NatToString(minutes) + " minutes. Must be between 1 and 60."))
    else Ok(())
  }

  /** `is_supported_language`. */
  predicate IsSupportedLanguage(language: string)
  {
    language == "en" || language == "zh" || language == "zh-CN" || language == "zh-TW"
  }

  /** The language test accepts exactly the listed languages. */
  lemma SupportedLanguagesAreListed(language: string)
    ensures IsSupportedLanguage(language) <==> language in SupportedLanguages
  {
  }

  function UnsupportedLanguage(language: string): AppError {
    SettingsError("Unsupported language: " + language)
  }

  /**
   * `validate_settings`: the interval is checked first, then the language
   * when one is set; no language at all is always accepted.
   */
  function ValidateSettings(s: UserSettings): (r: Result<()>)
    ensures r.Ok? <==> (1 <= s.monitorIntervalMinutes <= 60
                        && (s.language.Some? ==> s.language.value in SupportedLanguages))
    ensures !(1 <= s.monitorIntervalMinutes <= 60) ==> r == ValidateMonitorInterval(s.monitorIntervalMinutes)
    ensures r.Err? ==> r.error.SettingsError?
  {
    match ValidateMonitorInterval(s.monitorIntervalMinutes)
    case Err(e) => Err(e)
    case Ok(_) =>
      if s.language.Some? && !IsSupportedLanguage(s.language.value) then Err(UnsupportedLanguage(s.language.value))
      else Ok(())
  }

  /** The cases pinned by the unit tests of the interval and language checks. */
  lemma ValidationExamples()
    ensures ValidateMonitorInterval(1).Ok? && ValidateMonitorInterval(30).Ok? && ValidateMonitorInterval(60).Ok?
    ensures ValidateMonitorInterval(0).Err? && ValidateMonitorInterval(61).Err?
    ensures IsSupportedLanguage("en") && IsSupportedLanguage("zh")
    ensures IsSupportedLanguage("zh-CN") && IsSupportedLanguage("zh-TW")
    ensures !IsSupportedLanguage("fr") && !IsSupportedLanguage("invalid")
    ensures ValidateSettings(DefaultUserSettings()).Ok?
  {
  }

  // ---------------------------------------------------------------------
  // The JSON form of UserSettings (derived Serialize / Deserialize)
  // ---------------------------------------------------------------------

  const IntervalKey := "monitor_interval_minutes"
  const AutoStartKey := "auto_start_monitoring"
  const LanguageKey := "language"
  const NotificationsKey := "show_notifications"

  /** The members the derived implementations read and write. */
  function SettingsKeys(): set<string> {
    {IntervalKey, AutoStartKey, LanguageKey, NotificationsKey}
  }

  /** What `Serialize` produces: one member per field, `null` for no language. */
  function SettingsToJson(s: UserSettings): (j: Json)
    ensures j.JObj? && j.fields.Keys == SettingsKeys()
  {
    JObj(map[
      IntervalKey := JNum(s.monitorIntervalMinutes),
      AutoStartKey := JBool(s.autoStartMonitoring),
      LanguageKey := if s.language.Some? then JStr(s.language.value) else JNull,
      NotificationsKey := JBool(s.showNotifications)])
  }

  /** A `u64` member: a non-negative integer below 2^64. */
  function U64Member(m: map<string, Json>, k: string): (r: Option<u64>)
    ensures r.Some? ==> k in m && m[k] == JNum(r.value)
  {
    if k in m && m[k].JNum? && 0 <= m[k].n < 0x1_0000_0000_0000_0000 then Some(m[k].n) else None
  }

  /** A `bool` member. */
  function BoolMember(m: map<string, Json>, k: string): (r: Option<bool>)
    ensures r.Some? ==> k in m && m[k] == JBool(r.value)
  {
    if k in m && m[k].JBool? then Some(m[k].b) else None
  }

  /** An `Option<String>` member: missing or `null` is no value, a string is a value. */
  function OptionalStringMember(m: map<string, Json>, k: string): (r: Option<Option<string>>)
    ensures r == Some(None) <==> (k !in m || m[k] == JNull)
    ensures r.Some? && r.value.Some? ==> k in m && m[k] == JStr(r.value.value)
  {
    if k !in m || m[k] == JNull then Some(None)
    else if m[k].JStr? then Some(Some(m[k].s))
    else None
  }

  /**
   * What `Deserialize` accepts: an object with the three required members
   * of the right types and, optionally, a language; other members are
   * ignored.
   */
  function SettingsFromJson(j: Json): (r: Option<UserSettings>)
    ensures r.Some? ==> j.JObj?
    ensures r.Some? ==> (IntervalKey in j.fields && j.fields[IntervalKey] == JNum(r.value.monitorIntervalMinutes)
                         && AutoStartKey in j.fields && j.fields[AutoStartKey] == JBool(r.value.autoStartMonitoring)
                         && NotificationsKey in j.fields && j.fields[NotificationsKey] == JBool(r.value.showNotifications))
    ensures r.Some? ==> (r.value.language.None? <==> (LanguageKey !in j.fields || j.fields[LanguageKey] == JNull))
    ensures r.Some? && r.value.language.Some? ==>
      LanguageKey in j.fields && j.fields[LanguageKey] == JStr(r.value.language.value)
  {
    if !j.JObj? then None
    else
      var m := j.fields;
      match (U64Member(m, IntervalKey), BoolMember(m, AutoStartKey), OptionalStringMember(m, LanguageKey), BoolMember(m, NotificationsKey))
      case (Some(minutes), Some(autoStart), Some(language), Some(notify)) =>
        Some(UserSettings(minutes, autoStart, language, notify))
      case _ => None
  }

  /** Deserialising what was serialised gives the same settings. */
  lemma SettingsJsonRoundTrip(s: UserSettings)
    ensures SettingsFromJson(SettingsToJson(s)) == Some(s)
  {
    var m := SettingsToJson(s).fields;
    assert U64Member(m, IntervalKey) == Some(s.monitorIntervalMinutes);
    assert BoolMember(m, AutoStartKey) == Some(s.autoStartMonitoring);
    assert OptionalStringMember(m, LanguageKey) == Some(s.language);
    assert BoolMember(m, NotificationsKey) == Some(s.showNotifications);
  }

  /** Members other than the four fields do not change what is read. */
  lemma UnknownMembersAreIgnored(m: map<string, Json>, extra: map<string, Json>)
    requires extra.Keys !! SettingsKeys()
    ensures SettingsFromJson(JObj(m + extra)) == SettingsFromJson(JObj(m))
  {
    var w := m + extra;
    assert U64Member(w, IntervalKey) == U64Member(m, IntervalKey);
    assert BoolMember(w, AutoStartKey) == BoolMember(m, AutoStartKey);
    assert OptionalStringMember(w, LanguageKey) == OptionalStringMember(m, LanguageKey);
    assert BoolMember(w, NotificationsKey) == BoolMember(m, NotificationsKey);
  }

  /** A file written without a language member reads back with no language. */
  lemma MissingLanguageReadsAsNone(s: UserSettings)
    ensures SettingsFromJson(JObj(SettingsToJson(s).fields - {LanguageKey})) == Some(s.(language := None))
  {
    var m := SettingsToJson(s).fields - {LanguageKey};
    assert U64Member(m, IntervalKey) == Some(s.monitorIntervalMinutes);
    assert BoolMember(m, AutoStartKey) == Some(s.autoStartMonitoring);
    assert OptionalStringMember(m, LanguageKey) == Some(None);
    assert BoolMember(m, NotificationsKey) == Some(s.showNotifications);
  }

  // ---------------------------------------------------------------------
  // Reading settings from text
  // ---------------------------------------------------------------------

  const ReadFailedMsg := "Failed to read settings file"
  const ParseFailedMsg := "Failed to parse settings JSON"
  const ImportReadFailedMsg := "Failed to read import file"
  const ImportParseFailedMsg := "Failed to parse imported settings"
  const WriteTempFailedMsg := "Failed to write temporary settings file"
  const RenameFailedMsg := "Failed to save settings file"
  const ExportFailedMsg := "Failed to export settings"

  /**
   * The read-parse-validate sequence shared by `load_settings` and
   * `import_settings`; `text` is None when the file cannot be read, and
   * the two messages name the failing step.
   */
  function ReadSettings(codec: Codec, text: Option<string>, readMsg: string, parseMsg: string): (r: Result<UserSettings>)
    ensures r.Ok? ==> ValidateSettings(r.value).Ok?
    ensures r.Ok? ==> text.Some? && codec.parse(text.value).Some? && SettingsFromJson(codec.parse(text.value).value) == Some(r.value)
    ensures text.None? ==> r == Err(SettingsError(readMsg))
    ensures text.Some? && (codec.parse(text.value).None? || SettingsFromJson(codec.parse(text.value).value).None?)
            ==> r == Err(SettingsError(parseMsg))
  {
    if text.None? then Err(SettingsError(readMsg))
    else
      match codec.parse(text.value)
      case None => Err(SettingsError(parseMsg))
      case Some(j) =>
        match SettingsFromJson(j)
        case None => Err(SettingsError(parseMsg))
        case Some(s) =>
          match ValidateSettings(s)
          case Err(e) => Err(e)
          case Ok(_) => Ok(s)
  }

  /** Valid settings, pretty-printed, read back as themselves. */
  lemma ReadBackSerialized(codec: Codec, s: UserSettings, readMsg: string, parseMsg: string)
    requires Faithful(codec)
    requires ValidateSettings(s).Ok?
    ensures ReadSettings(codec, Some(codec.pretty(SettingsToJson(s))), readMsg, parseMsg) == Ok(s)
  {
    SettingsJsonRoundTrip(s);
  }

  /** Settings that fail validation are never read, whatever the text. */
  lemma InvalidSettingsAreRejected(codec: Codec, s: UserSettings, readMsg: string, parseMsg: string)
    requires Faithful(codec)
    requires ValidateSettings(s).Err?
    ensures ReadSettings(codec, Some(codec.pretty(SettingsToJson(s))), readMsg, parseMsg) == Err(ValidateSettings(s).error)
  {
    SettingsJsonRoundTrip(s);
  }

  // ---------------------------------------------------------------------
  // Paths
  // ---------------------------------------------------------------------

  /** The settings file name under the platform configuration directory. */
  const SettingsFileName := "cccs_settings.json"
  /** The file name `with_defaults` uses. */
  const FallbackFileName := "settings.json"

  /** The position of the last '.' in `s`. */
  function LastDot(s: string): (r: Option<nat>)
    ensures r.Some? ==> r.value < |s| && s[r.value] == '.' && forall k :: r.value < k < |s| ==> s[k] != '.'
    ensures r.None? ==> forall k :: 0 <= k < |s| ==> s[k] != '.'
    decreases |s|
  {
    if s == [] then None
    else if s[|s| - 1] == '.' then Some(|s| - 1)
    else
      var r := LastDot(s[..|s| - 1]);
      assert forall k :: 0 <= k < |s| - 1 ==> s[..|s| - 1][k] == s[k];
      r
  }

  /**
   * `Path::with_extension` on a file name: the stem is everything before
   * the last '.', unless that dot is the first character (a dot-file, whose
   * stem is the whole name); the new extension follows the stem.
   */
  function WithExtension(name: string, ext: string): (r: string)
    ensures ext != [] ==> EndsWith(r, "." + ext)
  {
    var stem := match LastDot(name) case Some(i) => if i == 0 then name else name[..i] case None => name;
    if ext == [] then stem else stem + "." + ext
  }

  /** `with_extension("json.tmp")` on a `.json` name appends `.tmp`. */
  lemma JsonTempName(name: string)
    requires EndsWith(name, ".json") && |name| > 5
    ensures WithExtension(name, "json.tmp") == name + ".tmp"
  {
    var i := |name| - 5;
    assert name[i..] == ".json";
    assert name[i] == '.';
    forall k | i < k < |name| ensures name[k] != '.' {
      assert name[k] == name[i..][k - i];
    }
    var d := LastDot(name);
    assert d.Some? && d.value == i;
    assert name == name[..i] + ".json";
  }

  /** Where `create_backup` writes: `cccs_settings_backup_<seconds>.json` beside the settings file. */
  function SettingsBackupPath(dir: Path, now: nat): (p: Path)
    ensures StartsWith(p, dir + "/cccs_settings_backup_") && EndsWith(p, ".json")
  {
    var p := dir + "/cccs_settings_backup_" + NatToString(now) + ".json";
    assert p == (dir + "/cccs_settings_backup_") + (NatToString(now) + ".json");
    assert p[|p| - 5..] == ".json";
    p
  }

  /** What is stored on disk after a temp-file write of `text` renamed over `live`. */
  function AfterSave(files: map<Path, Entry>, torn: set<Path>, temp: Path, live: Path, text: string, now: nat): map<Path, Entry>
  {
    var stored := Stored(torn, temp, text);
    (files - {temp})[live := Entry(true, true, stored, |stored|, now)]
  }

  /** After a complete save, loading gives back the saved settings. */
  lemma SaveThenLoad(codec: Codec, files: map<Path, Entry>, torn: set<Path>, temp: Path, live: Path,
                     s: UserSettings, now: nat, readMsg: string, parseMsg: string)
    requires Faithful(codec) && ValidateSettings(s).Ok? && temp !in torn
    ensures ReadSettings(codec, TextAt(AfterSave(files, torn, temp, live, codec.pretty(SettingsToJson(s)), now), live),
                         readMsg, parseMsg) == Ok(s)
  {
    ReadBackSerialized(codec, s, readMsg, parseMsg);
  }

  // ---------------------------------------------------------------------
  // The service
  // ---------------------------------------------------------------------

  /**
   * `SettingsService`: the path of the settings file and the preferences
   * currently in effect. The directory lookup and `create_dir_all` of
   * `new` are outside the model; the settings directory is a parameter.
   */
  class SettingsService {
    const settingsDir: Path
    const fileName: string
    const settingsPath: Path
    const disk: Disk
    const codec: Codec
    var current: UserSettings

    /** The preferences in memory always pass validation. */
    ghost predicate Valid()
      reads this
    {
      Faithful(codec)
      && (fileName == SettingsFileName || fileName == FallbackFileName)
      && settingsPath == settingsDir + "/" + fileName
      && ValidateSettings(current).Ok?
    }

    /** `with_defaults`, and `new` up to its call of `load_or_create_settings`. */
    constructor (settingsDir: Path, fileName: string, disk: Disk, codec: Codec)
      requires fileName == SettingsFileName || fileName == FallbackFileName
      requires Faithful(codec)
      ensures Valid()
      ensures this.settingsDir == settingsDir && this.fileName == fileName && this.disk == disk && this.codec == codec
      ensures current == DefaultUserSettings()
    {
      this.settingsDir := settingsDir;
      this.fileName := fileName;
      this.settingsPath := settingsDir + "/" + fileName;
      this.disk := disk;
      this.codec := codec;
      current := DefaultUserSettings();
    }

    /** `settings_file_path.with_extension("json.tmp")`. */
    function TempPath(): Path {
      settingsDir + "/" + WithExtension(fileName, "json.tmp")
    }

    /** The temporary file sits beside the settings file and is never the settings file. */
    lemma TempPathIsSibling()
      requires Valid()
      ensures TempPath() == settingsPath + ".tmp"
      ensures TempPath() != settingsPath
    {
      JsonTempName(fileName);
    }

    /** A settings backup never lands on the settings file or its temporary file. */
    lemma BackupPathIsFresh(now: nat)
      requires Valid()
      ensures SettingsBackupPath(settingsDir, now) != settingsPath
      ensures SettingsBackupPath(settingsDir, now) != TempPath()
    {
      TempPathIsSibling();
      assert |SettingsBackupPath(settingsDir, now)| >= |settingsDir| + 27;
    }

    /**
     * `save_settings`: validate, pretty-print, write the temporary file and
     * rename it over the settings file. Nothing is written when validation
     * fails; a failed rename leaves the temporary file behind.
     */
    method Save(s: UserSettings, now: nat) returns (r: Result<()>)
      requires Valid()
      modifies disk`files, disk`log
      ensures ValidateSettings(s).Err? ==> r == Err(ValidateSettings(s).error) && disk.files == old(disk.files)
      ensures r.Ok? <==> (ValidateSettings(s).Ok? && old(disk.Writable(TempPath()) && disk.Writable(settingsPath)))
      ensures r.Ok? ==> disk.files == AfterSave(old(disk.files), disk.torn, TempPath(), settingsPath, codec.pretty(SettingsToJson(s)), now)
      ensures r.Ok? && TempPath() !in disk.torn ==> ReadSettings(codec, TextAt(disk.files, settingsPath), ReadFailedMsg, ParseFailedMsg) == Ok(s)
      ensures r.Err? ==> r.error.SettingsError? && disk.files - {TempPath()} == old(disk.files) - {TempPath()}
      ensures disk.torn == old(disk.torn) && disk.locked == old(disk.locked)
    {
      var v := ValidateSettings(s);
      if v.Err? {
        return Err(v.error);
      }
      var content := codec.pretty(SettingsToJson(s));
      var temp := TempPath();
      TempPathIsSibling();
      var wrote := disk.Write(temp, content, now);
      if !wrote {
        return Err(SettingsError(WriteTempFailedMsg));
      }
      var moved := disk.Rename(temp, settingsPath);
      if !moved {
        return Err(SettingsError(RenameFailedMsg));
      }
      assert disk.files == AfterSave(old(disk.files), disk.torn, temp, settingsPath, content, now);
      if temp !in disk.torn {
        SaveThenLoad(codec, old(disk.files), disk.torn, temp, settingsPath, s, now, ReadFailedMsg, ParseFailedMsg);
      }
      r := Ok(());
    }

    /** `load_settings`: read, parse and validate the settings file, then adopt it. */
    method Load() returns (r: Result<UserSettings>)
      requires Valid()
      modifies this`current
      ensures Valid()
      ensures r == ReadSettings(codec, TextAt(disk.files, settingsPath), ReadFailedMsg, ParseFailedMsg)
      ensures r.Ok? ==> current == r.value
      ensures r.Err? ==> current == old(current)
    {
      var text := disk.Read(settingsPath);
      if text.Err? {
        return Err(SettingsError(ReadFailedMsg));
      }
      var json := codec.parse(text.value);
      if json.None? {
        return Err(SettingsError(ParseFailedMsg));
      }
      var decoded := SettingsFromJson(json.value);
      if decoded.None? {
        return Err(SettingsError(ParseFailedMsg));
      }
      var s := decoded.value;
      var v := ValidateSettings(s);
      if v.Err? {
        return Err(v.error);
      }
      current := s;
      r := Ok(s);
    }

    /** `load_or_create_settings`: load an existing file, or save the defaults. */
    method LoadOrCreate(now: nat) returns (r: Result<()>)
      requires Valid()
      modifies this`current, disk`files, disk`log
      ensures Valid()
      ensures old(disk.Exists(settingsPath)) ==> (
        var loaded := ReadSettings(codec, old(TextAt(disk.files, settingsPath)), ReadFailedMsg, ParseFailedMsg);
        disk.files == old(disk.files)
        && (r.Ok? <==> loaded.Ok?)
        && (loaded.Ok? ==> current == loaded.value)
        && (loaded.Err? ==> r == Err(loaded.error) && current == old(current)))
      ensures !old(disk.Exists(settingsPath)) ==> (
        current == old(current)
        && (r.Ok? <==> old(disk.Writable(TempPath()) && disk.Writable(settingsPath)))
        && (r.Ok? ==> disk.files == AfterSave(old(disk.files), disk.torn, TempPath(), settingsPath,
                                             codec.pretty(SettingsToJson(DefaultUserSettings())), now)))
    {
      if disk.Exists(settingsPath) {
        var loaded := Load();
        if loaded.Err? {
          return Err(loaded.error);
        }
      } else {
        r := Save(DefaultUserSettings(), now);
        if r.Err? {
          return;
        }
      }
      r := Ok(());
    }

    /** `update_settings`: save first, and adopt the settings only when the save succeeded. */
    method UpdateSettings(s: UserSettings, now: nat) returns (r: Result<()>)
      requires Valid()
      modifies this`current, disk`files, disk`log
      ensures Valid()
      ensures r.Ok? <==> (ValidateSettings(s).Ok? && old(disk.Writable(TempPath()) && disk.Writable(settingsPath)))
      ensures r.Ok? ==> current == s
      ensures r.Ok? ==> disk.files == AfterSave(old(disk.files), disk.torn, TempPath(), settingsPath, codec.pretty(SettingsToJson(s)), now)
      ensures r.Err? ==> current == old(current) && disk.files - {TempPath()} == old(disk.files) - {TempPath()}
      ensures ValidateSettings(s).Err? ==> r == Err(ValidateSettings(s).error) && disk.files == old(disk.files)
    {
      r := Save(s, now);
      if r.Err? {
        return;
      }
      current := s;
    }

    /**
     * `update_monitor_interval`: a value outside 1..=60 is refused before
     * anything changes; otherwise the interval is set in memory and then
     * saved, so a failed save leaves the new interval in memory.
     */
    method UpdateMonitorInterval(minutes: u64, now: nat) returns (r: Result<()>)
      requires Valid()
      modifies this`current, disk`files, disk`log
      ensures Valid()
      ensures ValidateMonitorInterval(minutes).Err? ==> (
        r == Err(ValidateMonitorInterval(minutes).error) && current == old(current) && disk.files == old(disk.files))
      ensures ValidateMonitorInterval(minutes).Ok? ==> current == old(current).(monitorIntervalMinutes := minutes)
      ensures r.Ok? <==> (ValidateMonitorInterval(minutes).Ok? && old(disk.Writable(TempPath()) && disk.Writable(settingsPath)))
      ensures r.Ok? ==> disk.files == AfterSave(old(disk.files), disk.torn, TempPath(), settingsPath, codec.pretty(SettingsToJson(current)), now)
      ensures r.Err? ==> disk.files - {TempPath()} == old(disk.files) - {TempPath()}
    {
      var v := ValidateMonitorInterval(minutes);
      if v.Err? {
        return Err(v.error);
      }
      current := current.(monitorIntervalMinutes := minutes);
      r := Save(current, now);
    }

    /** `update_auto_start_monitoring`: set in memory, then save. */
    method UpdateAutoStartMonitoring(enabled: bool, now: nat) returns (r: Result<()>)
      requires Valid()
      modifies this`current, disk`files, disk`log
      ensures Valid()
      ensures current == old(current).(autoStartMonitoring := enabled)
      ensures r.Ok? <==> old(disk.Writable(TempPath()) && disk.Writable(settingsPath))
      ensures r.Ok? ==> disk.files == AfterSave(old(disk.files), disk.torn, TempPath(), settingsPath, codec.pretty(SettingsToJson(current)), now)
      ensures r.Err? ==> disk.files - {TempPath()} == old(disk.files) - {TempPath()}
    {
      current := current.(autoStartMonitoring := enabled);
      r := Save(current, now);
    }

    /**
     * `update_language`: an unsupported language is refused before anything
     * changes; no language is always accepted. Then set in memory and save.
     */
    method UpdateLanguage(language: Option<string>, now: nat) returns (r: Result<()>)
      requires Valid()
      modifies this`current, disk`files, disk`log
      ensures Valid()
      ensures language.Some? && language.value !in SupportedLanguages ==> (
        r == Err(UnsupportedLanguage(language.value)) && current == old(current) && disk.files == old(disk.files))
      ensures (language.None? || language.value in SupportedLanguages) ==> current == old(current).(language := language)
      ensures r.Ok? <==> ((language.None? || language.value in SupportedLanguages)
                          && old(disk.Writable(TempPath()) && disk.Writable(settingsPath)))
      ensures r.Ok? ==> disk.files == AfterSave(old(disk.files), disk.torn, TempPath(), settingsPath, codec.pretty(SettingsToJson(current)), now)
      ensures r.Err? ==> disk.files - {TempPath()} == old(disk.files) - {TempPath()}
    {
      if language.Some? && !IsSupportedLanguage(language.value) {
        return Err(UnsupportedLanguage(language.value));
      }
      current := current.(language := language);
      r := Save(current, now);
    }

    /** `update_show_notifications`: set in memory, then save. */
    method UpdateShowNotifications(enabled: bool, now: nat) returns (r: Result<()>)
      requires Valid()
      modifies this`current, disk`files, disk`log
      ensures Valid()
      ensures current == old(current).(showNotifications := enabled)
      ensures r.Ok? <==> old(disk.Writable(TempPath()) && disk.Writable(settingsPath))
      ensures r.Ok? ==> disk.files == AfterSave(old(disk.files), disk.torn, TempPath(), settingsPath, codec.pretty(SettingsToJson(current)), now)
      ensures r.Err? ==> disk.files - {TempPath()} == old(disk.files) - {TempPath()}
    {
      current := current.(showNotifications := enabled);
      r := Save(current, now);
    }

    /** `reset_to_defaults`: save the defaults, and adopt them only when that succeeded. */
    method ResetToDefaults(now: nat) returns (r: Result<()>)
      requires Valid()
      modifies this`current, disk`files, disk`log
      ensures Valid()
      ensures r.Ok? <==> old(disk.Writable(TempPath()) && disk.Writable(settingsPath))
      ensures r.Ok? ==> current == DefaultUserSettings()
      ensures r.Ok? ==> disk.files == AfterSave(old(disk.files), disk.torn, TempPath(), settingsPath,
                                               codec.pretty(SettingsToJson(DefaultUserSettings())), now)
      ensures r.Err? ==> current == old(current)
    {
      r := UpdateSettings(DefaultUserSettings(), now);
    }

    /** `export_settings`: write the current settings straight to `target`, with no temporary file. */
    method ExportSettings(target: Path, now: nat) returns (r: Result<()>)
      requires Valid()
      modifies disk`files, disk`log
      ensures r.Ok? <==> old(disk.Writable(target))
      ensures r.Ok? ==> (
        var text := Stored(disk.torn, target, codec.pretty(SettingsToJson(current)));
        disk.files == old(disk.files)[target := Entry(true, true, text, |text|, now)])
      ensures r.Ok? && target !in disk.torn ==>
        ReadSettings(codec, TextAt(disk.files, target), ImportReadFailedMsg, ImportParseFailedMsg) == Ok(current)
      ensures r.Err? ==> r == Err(SettingsError(ExportFailedMsg)) && disk.files == old(disk.files)
    {
      var content := codec.pretty(SettingsToJson(current));
      var wrote := disk.Write(target, content, now);
      if !wrote {
        return Err(SettingsError(ExportFailedMsg));
      }
      ReadBackSerialized(codec, current, ImportReadFailedMsg, ImportParseFailedMsg);
      r := Ok(());
    }

    /**
     * `import_settings`: read, parse and validate `source`, then
     * `update_settings` with the result. A file that fails any step
     * changes nothing.
     */
    method ImportSettings(source: Path, now: nat) returns (r: Result<()>)
      requires Valid()
      modifies this`current, disk`files, disk`log
      ensures Valid()
      ensures (
        var imported := ReadSettings(codec, old(TextAt(disk.files, source)), ImportReadFailedMsg, ImportParseFailedMsg);
        (imported.Err? ==> r == Err(imported.error) && current == old(current) && disk.files == old(disk.files))
        && (r.Ok? <==> (imported.Ok? && old(disk.Writable(TempPath()) && disk.Writable(settingsPath))))
        && (r.Ok? ==> current == imported.value
                      && disk.files == AfterSave(old(disk.files), disk.torn, TempPath(), settingsPath,
                                                 codec.pretty(SettingsToJson(imported.value)), now)))
      ensures r.Err? ==> current == old(current)
    {
      var text := disk.Read(source);
      if text.Err? {
        return Err(SettingsError(ImportReadFailedMsg));
      }
      var json := codec.parse(text.value);
      if json.None? {
        return Err(SettingsError(ImportParseFailedMsg));
      }
      var decoded := SettingsFromJson(json.value);
      if decoded.None? {
        return Err(SettingsError(ImportParseFailedMsg));
      }
      var v := ValidateSettings(decoded.value);
      if v.Err? {
        return Err(v.error);
      }
      r := UpdateSettings(decoded.value, now);
    }

    /**
     * `create_backup`: export the current settings to a time-stamped file
     * beside the settings file and return its path.
     */
    method CreateBackup(now: nat) returns (r: Result<Path>)
      requires Valid()
      modifies disk`files, disk`log
      ensures r.Ok? <==> old(disk.Writable(SettingsBackupPath(settingsDir, now)))
      ensures r.Ok? ==> r.value == SettingsBackupPath(settingsDir, now)
      ensures r.Ok? && r.value !in disk.torn ==>
        ReadSettings(codec, TextAt(disk.files, r.value), ImportReadFailedMsg, ImportParseFailedMsg) == Ok(current)
      ensures r.Ok? ==> disk.files - {r.value} == old(disk.files) - {r.value}
      ensures EntryAt(disk.files, settingsPath) == old(EntryAt(disk.files, settingsPath))
      ensures r.Err? ==> disk.files == old(disk.files)
    {
      var backup := SettingsBackupPath(settingsDir, now);
      BackupPathIsFresh(now);
      var exported := ExportSettings(backup, now);
      if exported.Err? {
        return Err(exported.error);
      }
      r := Ok(backup);
    }
  }
}
