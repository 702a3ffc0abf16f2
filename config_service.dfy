/**
 * The profile store of `config_service.rs`: which files are profiles, how
 * they are loaded through a 60-second content cache, how each one is
 * compared with the live `settings.json`, and the switch protocol
 * (validate, back up, write a temporary file, verify, rename, verify, and
 * roll back from the backup on failure).
 */
module ConfigStore {
  import opened Types
  import opened Storage
  import opened BackupRotation

  const LiveFileName: string := "settings.json"
  const ProfileSuffix: string := ".settings.json"
  const CacheTtlSeconds: nat := 60
  const MaxProfileNameLength: nat := 255
  /** The one member the tolerant comparison leaves out. */
  const IgnoredField: string := "model"

  /** `PathBuf::join` of a directory and a plain file name. */
  function Join(dir: Path, name: string): Path {
    dir + "/" + name
  }

  lemma JoinInjective(dir: Path, a: string, b: string)
    requires Join(dir, a) == Join(dir, b)
    ensures a == b
  {
    assert a == Join(dir, a)[|dir| + 1..];
    assert b == Join(dir, b)[|dir| + 1..];
  }

  // ---------------------------------------------------------------------
  // Which directory entries are profiles
  // ---------------------------------------------------------------------

  /**
   * The profile name carried by a file name: the stem before
   * `.settings.json`, when there is one and it is not empty.
   */
  function ProfileStem(fileName: string): (r: Option<string>)
    ensures r.Some? <==> EndsWith(fileName, ProfileSuffix) && fileName != LiveFileName && |fileName| > |ProfileSuffix|
    ensures r.Some? ==> r.value != "" && r.value + ProfileSuffix == fileName
  {
    if EndsWith(fileName, ProfileSuffix) && fileName != LiveFileName then
      var stem := fileName[..|fileName| - |ProfileSuffix|];
      if stem != "" then Some(stem) else None
    else None
  }

  /** The live settings file is never taken for a profile, and the suffix alone names none. */
  lemma LiveFileIsNotAProfile()
    ensures ProfileStem(LiveFileName) == None
    ensures ProfileStem(ProfileSuffix) == None
    ensures ProfileStem("work.settings.json") == Some("work")
  {
    assert "work.settings.json"[..|"work.settings.json"| - |ProfileSuffix|] == "work";
  }

  /** The explicit exclusion of `settings.json` is implied by the suffix test. */
  lemma LiveFileExclusionIsImplied(fileName: string)
    requires EndsWith(fileName, ProfileSuffix)
    ensures fileName != LiveFileName
  {
  }

  // ---------------------------------------------------------------------
  // Comparing a profile with the live settings
  // ---------------------------------------------------------------------

  /**
   * `compare_json_ignoring_field`: two objects are compared with `field`
   * removed from both; any other pair of values is compared as it is.
   */
  predicate EqualIgnoringField(a: Json, b: Json, field: string) {
    match (a, b)
    case (JObj(x), JObj(y)) => x - {field} == y - {field}
    case _ => a == b
  }

  /** Objects equal up to `field` agree on every other member. */
  lemma EqualIgnoringFieldMembers(x: map<string, Json>, y: map<string, Json>, field: string, k: string)
    requires EqualIgnoringField(JObj(x), JObj(y), field) && k != field
    ensures k in x <==> k in y
    ensures k in x ==> x[k] == y[k]
  {
    assert k in x <==> k in x - {field};
    assert k in y <==> k in y - {field};
    if k in x {
      assert (x - {field})[k] == x[k];
    }
    if k in y {
      assert (y - {field})[k] == y[k];
    }
  }

  /** The tolerant comparison is an equivalence that contains equality. */
  lemma EqualIgnoringFieldIsEquivalence(a: Json, b: Json, c: Json, field: string)
    ensures EqualIgnoringField(a, a, field)
    ensures EqualIgnoringField(a, b, field) ==> EqualIgnoringField(b, a, field)
    ensures EqualIgnoringField(a, b, field) && EqualIgnoringField(b, c, field) ==> EqualIgnoringField(a, c, field)
  {
  }

  const ReadDefaultFailed: string := "Failed to read default settings"
  const InvalidDefaultJson: string := "Invalid default settings JSON"
  const InvalidProfileJson: string := "Invalid profile JSON"

  /**
   * The four-way status of a profile against the live settings, from the
   * parsed values (None where parsing failed). The live side is checked
   * first; exact equality is tried before the comparison without `model`.
   */
  function Classify(live: Option<Json>, profile: Option<Json>): (s: ProfileStatus)
    ensures live.None? ==> s == Error(InvalidDefaultJson)
    ensures live.Some? && profile.None? ==> s == Error(InvalidProfileJson)
    ensures s == FullMatch <==> live.Some? && profile.Some? && profile.value == live.value
    ensures s == PartialMatch <==>
      live.Some? && profile.Some? && profile.value != live.value
      && EqualIgnoringField(profile.value, live.value, IgnoredField)
    ensures s == NoMatch <==>
      live.Some? && profile.Some? && !EqualIgnoringField(profile.value, live.value, IgnoredField)
  {
    match (live, profile)
    case (None, _) => Error(InvalidDefaultJson)
    case (_, None) => Error(InvalidProfileJson)
    case (Some(d), Some(p)) =>
      if p == d then FullMatch
      else if EqualIgnoringField(p, d, IgnoredField) then PartialMatch
      else NoMatch
  }

  /** Values that are not both objects are either a full match or no match. */
  lemma NonObjectsNeverMatchPartially(live: Json, profile: Json)
    requires !(live.JObj? && profile.JObj?)
    ensures Classify(Some(live), Some(profile)) in {FullMatch, NoMatch}
  {
  }

  /**
   * `get_detailed_profile_status` once the live file has been read
   * (`live` is None when reading it failed).
   */
  function DetailedStatus(codec: Codec, live: Option<string>, profileContent: string): (s: ProfileStatus)
    ensures live.None? ==> s == Error(ReadDefaultFailed)
    ensures live.Some? ==> s == Classify(codec.parse(live.value), codec.parse(profileContent))
  {
    match live
    case None => Error(ReadDefaultFailed)
    case Some(text) => Classify(codec.parse(text), codec.parse(profileContent))
  }

  /** The worked example: profiles that differ only in `model` match partially. */
  lemma ModelOnlyDifferenceIsPartial()
    ensures Classify(
      Some(JObj(map["theme" := JStr("dark"), "model" := JStr("m1")])),
      Some(JObj(map["theme" := JStr("dark"), "model" := JStr("m2")]))) == PartialMatch
  {
    var a := map["theme" := JStr("dark"), "model" := JStr("m1")];
    var b := map["theme" := JStr("dark"), "model" := JStr("m2")];
    assert a["model"] != b["model"];
    assert a - {IgnoredField} == map["theme" := JStr("dark")];
    assert b - {IgnoredField} == map["theme" := JStr("dark")];
  }

  /** `compare_configurations`: both texts parse and give the same value. */
  predicate SameConfiguration(codec: Codec, a: string, b: string) {
    codec.parse(a).Some? && codec.parse(a) == codec.parse(b)
  }

  // ---------------------------------------------------------------------
  // Activation flags
  // ---------------------------------------------------------------------

  /** The parsed live settings, None when they could not be read or parsed. */
  function LiveJson(codec: Codec, live: Result<string>): Option<Json> {
    if live.Err? then None else codec.parse(live.value)
  }

  /** `compare_configurations_optimized` against the parsed live settings. */
  predicate ActiveAgainst(codec: Codec, live: Option<Json>, content: string) {
    live.Some? && codec.parse(content) == live
  }

  /** The profiles with `is_active` recomputed against `live`. */
  function MarkProfiles(codec: Codec, ps: seq<Profile>, live: Option<Json>): (qs: seq<Profile>)
    ensures |qs| == |ps|
    ensures forall i :: 0 <= i < |ps| ==> qs[i] == ps[i].(isActive := ActiveAgainst(codec, live, ps[i].content))
  {
    seq(|ps|, i requires 0 <= i < |ps| => ps[i].(isActive := ActiveAgainst(codec, live, ps[i].content)))
  }

  /** A profile is marked active iff its JSON equals the live JSON; unreadable live settings mark none. */
  lemma MarkProfilesMeaning(codec: Codec, ps: seq<Profile>, live: Option<Json>, i: nat)
    requires i < |ps|
    ensures MarkProfiles(codec, ps, live)[i].isActive <==> live.Some? && codec.parse(ps[i].content) == Some(live.value)
    ensures live.None? ==> !MarkProfiles(codec, ps, live)[i].isActive
    ensures MarkProfiles(codec, ps, live)[i].(isActive := ps[i].isActive) == ps[i]
  {
  }

  /** The index of the first profile called `name`, as `iter().find` picks it. */
  function FirstNamed(ps: seq<Profile>, name: string): (r: Option<nat>)
    ensures r.Some? ==> r.value < |ps| && ps[r.value].name == name
    ensures r.Some? ==> forall j :: 0 <= j < r.value ==> ps[j].name != name
    ensures r.None? <==> forall j :: 0 <= j < |ps| ==> ps[j].name != name
    decreases |ps|
  {
    if ps == [] then None
    else if ps[0].name == name then Some(0)
    else match FirstNamed(ps[1..], name)
      case None => None
      case Some(k) => Some(k + 1)
  }

  // ---------------------------------------------------------------------
  // The content cache
  // ---------------------------------------------------------------------

  datatype CacheEntry = CacheEntry(metadata: FileMetadata, content: string, lastUpdated: nat)
  datatype SettingsSnapshot = SettingsSnapshot(content: string, cachedAt: nat)

  /** `is_cache_valid`: younger than the TTL; a time in the future is not valid. */
  predicate IsCacheValid(lastUpdated: nat, now: nat) {
    lastUpdated <= now && now - lastUpdated < CacheTtlSeconds
  }

  /** The cached content of `p` may be served without reading the file. */
  predicate CacheHit(cache: map<Path, CacheEntry>, files: map<Path, Entry>, p: Path, now: nat) {
    p in cache && IsCacheValid(cache[p].lastUpdated, now)
    && p in files && files[p].mtime <= cache[p].metadata.modifiedTime
  }

  /** The answer of a read through a cache, and the cache afterwards. */
  datatype CachedRead<C> = CachedRead(result: Result<string>, cache: C)

  /** `get_file_content_cached`. */
  function ReadThroughCache(cache: map<Path, CacheEntry>, files: map<Path, Entry>, crc: Hasher, p: Path, now: nat)
    : CachedRead<map<Path, CacheEntry>>
  {
    if CacheHit(cache, files, p, now) then CachedRead(Ok(cache[p].content), cache)
    else if !Readable(files, p) then CachedRead(Err(FileSystemError("Failed to read file")), cache)
    else
      var md := Fingerprint(files, crc, p);
      CachedRead(Ok(files[p].content), cache[p := CacheEntry(md.value, files[p].content, now)])
  }

  /**
   * The cache serves an entry only while it is younger than the TTL and the
   * file has not been modified after it; otherwise the file is read and the
   * entry replaced by one stamped `now`.
   */
  lemma ReadThroughCacheMeaning(cache: map<Path, CacheEntry>, files: map<Path, Entry>, crc: Hasher, p: Path, now: nat)
    ensures var r := ReadThroughCache(cache, files, crc, p, now);
      && (r.result.Ok? && (p !in files || r.result.value != files[p].content) ==>
            p in cache && now - cache[p].lastUpdated < 60 && files[p].mtime <= cache[p].metadata.modifiedTime)
      && (!CacheHit(cache, files, p, now) ==>
            (r.result.Ok? <==> Readable(files, p))
            && (r.result.Ok? ==>
                  (r.result.value == files[p].content && p in r.cache
                   && r.cache[p].content == files[p].content && r.cache[p].lastUpdated == now
                   && r.cache[p].metadata.modifiedTime == files[p].mtime))
            && r.cache - {p} == cache - {p})
      && (CacheHit(cache, files, p, now) ==> r.cache == cache)
  {
  }

  /** The single-slot cache of the live settings may be served. */
  predicate SettingsHit(snap: Option<SettingsSnapshot>, files: map<Path, Entry>, live: Path, now: nat) {
    snap.Some? && IsCacheValid(snap.value.cachedAt, now)
    && live in files && files[live].mtime <= snap.value.cachedAt
  }

  /** `get_default_settings_cached`. */
  function ReadSettingsThroughCache(snap: Option<SettingsSnapshot>, files: map<Path, Entry>, live: Path, now: nat)
    : CachedRead<Option<SettingsSnapshot>>
  {
    if SettingsHit(snap, files, live, now) then CachedRead(Ok(snap.value.content), snap)
    else if !Readable(files, live) then CachedRead(Err(ConfigError(ReadDefaultFailed)), snap)
    else CachedRead(Ok(files[live].content), Some(SettingsSnapshot(files[live].content, now)))
  }

  /**
   * A stale answer comes only from a snapshot younger than the TTL taken no
   * earlier than the file's last modification; a miss reads the file and
   * stamps the snapshot `now`, and a failed read leaves the snapshot alone.
   */
  lemma ReadSettingsThroughCacheMeaning(snap: Option<SettingsSnapshot>, files: map<Path, Entry>, live: Path, now: nat)
    ensures var r := ReadSettingsThroughCache(snap, files, live, now);
      && (r.result.Ok? && (live !in files || r.result.value != files[live].content) ==>
            snap.Some? && snap.value.cachedAt <= now && now - snap.value.cachedAt < 60
            && files[live].mtime <= snap.value.cachedAt)
      && (!SettingsHit(snap, files, live, now) ==>
            (r.result.Ok? <==> Readable(files, live))
            && (r.result.Ok? ==> r.result.value == files[live].content && r.cache == Some(SettingsSnapshot(files[live].content, now)))
            && (r.result.Err? ==> r.result == Err(ConfigError(ReadDefaultFailed)) && r.cache == snap))
      && (SettingsHit(snap, files, live, now) ==> r.cache == snap)
  {
  }

  // ---------------------------------------------------------------------
  // Scanning the directory
  // ---------------------------------------------------------------------

  /** An entry of `read_dir`: a file name, or an entry that could not be read. */
  datatype DirEntry = Named(fileName: string) | Unreadable

  /** What a scan works against: the directory, the files, the clock and the libraries. */
  datatype ScanEnv = ScanEnv(dir: Path, files: map<Path, Entry>, now: nat, codec: Codec, crc: Hasher)

  const EmptyNameMsg: string := "Profile name cannot be empty"
  const NameTooLongMsg: string := "Profile name too long (max 255 characters)"

  /** The outcome of loading one profile, and the cache afterwards. */
  datatype Loaded = Loaded(result: Result<Profile>, cache: map<Path, CacheEntry>)

  /** `load_profile_optimized`. */
  function LoadProfileFrom(env: ScanEnv, cache: map<Path, CacheEntry>, name: string, p: Path): Loaded {
    if name == "" then Loaded(Err(ConfigError(EmptyNameMsg)), cache)
    else if |name| > MaxProfileNameLength then Loaded(Err(ConfigError(NameTooLongMsg)), cache)
    else
      var read := ReadThroughCache(cache, env.files, env.crc, p, env.now);
      if read.result.Err? then Loaded(Err(read.result.error), read.cache)
      else if env.codec.parse(read.result.value).None? then
        Loaded(Err(ConfigError("Invalid JSON in profile " + name)), read.cache)
      else Loaded(Ok(Profile(name, p, read.result.value, false)), read.cache)
  }

  /** A loaded profile has a valid name, JSON content and is not yet active. */
  lemma LoadProfileFromMeaning(env: ScanEnv, cache: map<Path, CacheEntry>, name: string, p: Path)
    ensures var l := LoadProfileFrom(env, cache, name, p);
      && (l.result.Ok? ==>
            (l.result.value.name == name && l.result.value.path == p
             && !l.result.value.isActive && env.codec.parse(l.result.value.content).Some?))
      && (l.result.Ok? <==>
            name != "" && |name| <= MaxProfileNameLength
            && ReadThroughCache(cache, env.files, env.crc, p, env.now).result.Ok?
            && env.codec.parse(ReadThroughCache(cache, env.files, env.crc, p, env.now).result.value).Some?)
      && ((name == "" || |name| > MaxProfileNameLength) ==> l.cache == cache)
  {
  }

  /** The profiles found so far and the content cache. */
  datatype ScanState = ScanState(found: seq<Profile>, cache: map<Path, CacheEntry>)

  /** One step of the scan loop. */
  function ScanEntry(env: ScanEnv, st: ScanState, e: DirEntry): ScanState {
    match e
    case Unreadable => st
    case Named(n) =>
      match ProfileStem(n)
      case None => st
      case Some(stem) =>
        var l := LoadProfileFrom(env, st.cache, stem, Join(env.dir, n));
        if l.result.Ok? then ScanState(st.found + [l.result.value], l.cache)
        else ScanState(st.found, l.cache)
  }

  /** The scan loop over a listing, in listing order. */
  function ScanEntries(env: ScanEnv, cache: map<Path, CacheEntry>, es: seq<DirEntry>): ScanState
    decreases |es|
  {
    if es == [] then ScanState([], cache)
    else ScanEntry(env, ScanEntries(env, cache, es[..|es| - 1]), es[|es| - 1])
  }

  /** A profile the scan may report: named after a listed `*.settings.json` file, valid and not active. */
  ghost predicate ScannedFrom(env: ScanEnv, es: seq<DirEntry>, p: Profile) {
    && p.name != "" && |p.name| <= MaxProfileNameLength && !p.isActive
    && Named(p.name + ProfileSuffix) in es
    && p.path == Join(env.dir, p.name + ProfileSuffix)
    && env.codec.parse(p.content).Some?
  }

  /** Every profile a scan reports comes from a listed profile file and holds valid JSON. */
  lemma {:induction false} ScanEntriesSound(env: ScanEnv, cache: map<Path, CacheEntry>, es: seq<DirEntry>)
    ensures var st := ScanEntries(env, cache, es);
      |st.found| <= |es| && forall i :: 0 <= i < |st.found| ==> ScannedFrom(env, es, st.found[i])
    decreases |es|
  {
    if es != [] {
      var prefix := es[..|es| - 1];
      var last := es[|es| - 1];
      ScanEntriesSound(env, cache, prefix);
      var prev := ScanEntries(env, cache, prefix);
      forall i | 0 <= i < |prev.found|
        ensures ScannedFrom(env, es, prev.found[i])
      {
        assert ScannedFrom(env, prefix, prev.found[i]);
        assert Named(prev.found[i].name + ProfileSuffix) in prefix;
        assert prefix <= es;
      }
      if last.Named? && ProfileStem(last.fileName).Some? {
        var stem := ProfileStem(last.fileName).value;
        LoadProfileFromMeaning(env, prev.cache, stem, Join(env.dir, last.fileName));
        assert last == Named(stem + ProfileSuffix);
      }
    }
  }

  /** The profiles with their activation flags refreshed, and the live-settings cache afterwards. */
  datatype Refreshed = Refreshed(profiles: seq<Profile>, snapshot: Option<SettingsSnapshot>)

  /**
   * `update_profile_status_optimized`: an empty list is left alone;
   * otherwise each profile is active iff its JSON equals the live JSON, and
   * none is when the live settings cannot be read or parsed.
   */
  function RefreshStatus(codec: Codec, snap: Option<SettingsSnapshot>, files: map<Path, Entry>, live: Path, now: nat, ps: seq<Profile>)
    : Refreshed
  {
    if ps == [] then Refreshed(ps, snap)
    else
      var read := ReadSettingsThroughCache(snap, files, live, now);
      Refreshed(MarkProfiles(codec, ps, LiveJson(codec, read.result)), read.cache)
  }

  /**
   * Refreshing keeps the list and changes only the flags: a profile ends up
   * active iff its JSON equals the JSON of the live settings as read through
   * the cache, and every profile is inactive when those cannot be read or
   * parsed.
   */
  lemma RefreshStatusMeaning(codec: Codec, snap: Option<SettingsSnapshot>, files: map<Path, Entry>, live: Path, now: nat,
                             ps: seq<Profile>, i: nat)
    requires i < |ps|
    ensures var qs := RefreshStatus(codec, snap, files, live, now, ps).profiles;
      var read := ReadSettingsThroughCache(snap, files, live, now).result;
      && |qs| == |ps| && qs[i].(isActive := ps[i].isActive) == ps[i]
      && (qs[i].isActive <==> read.Ok? && codec.parse(read.value).Some? && codec.parse(ps[i].content) == codec.parse(read.value))
      && (read.Err? ==> !qs[i].isActive)
  {
    MarkProfilesMeaning(codec, ps, LiveJson(codec, ReadSettingsThroughCache(snap, files, live, now).result), i);
  }

  // ---------------------------------------------------------------------
  // Paths of the switch protocol
  // ---------------------------------------------------------------------

  function TempPath(live: Path): Path { live + ".tmp" }
  function WriteTestPath(live: Path): Path { live + ".write_test" }
  function RestoreTempPath(live: Path): Path { live + ".restore_tmp" }
  /** The timestamped backup taken before a switch. */
  function BackupPath(live: Path, timestamp: nat): Path { live + ".backup." + NatToString(timestamp) }

  /** The live file and the four companion files of a switch are five different paths. */
  lemma SwitchPathsDistinct(live: Path, timestamp: nat)
    ensures live != TempPath(live) && live != WriteTestPath(live) && live != RestoreTempPath(live)
    ensures live != BackupPath(live, timestamp)
    ensures TempPath(live) != WriteTestPath(live) && TempPath(live) != RestoreTempPath(live)
    ensures TempPath(live) != BackupPath(live, timestamp)
    ensures WriteTestPath(live) != RestoreTempPath(live) && WriteTestPath(live) != BackupPath(live, timestamp)
    ensures RestoreTempPath(live) != BackupPath(live, timestamp)
  {
    var b := ".backup." + NatToString(timestamp);
    assert BackupPath(live, timestamp) == live + b;
    assert ".tmp"[1] != ".write_test"[1] && ".tmp"[1] != ".restore_tmp"[1] && ".tmp"[1] != b[1];
    assert ".write_test"[1] != ".restore_tmp"[1] && ".write_test"[1] != b[1] && ".restore_tmp"[1] != b[1];
    SuffixesDistinct(live, ".tmp", ".write_test");
    SuffixesDistinct(live, ".tmp", ".restore_tmp");
    SuffixesDistinct(live, ".tmp", b);
    SuffixesDistinct(live, ".write_test", ".restore_tmp");
    SuffixesDistinct(live, ".write_test", b);
    SuffixesDistinct(live, ".restore_tmp", b);
  }

  // ---------------------------------------------------------------------
  // Backup cleanup as written
  // ---------------------------------------------------------------------

  /**
   * The directory entries `cleanup_old_backups` selects: those whose file
   * name starts with `pattern`, with their modification time (0 when the
   * metadata cannot be had, as `unwrap_or(UNIX_EPOCH)`).
   */
  function BackupCandidates(listing: seq<DirEntry>, pattern: string, dir: Path, files: map<Path, Entry>): seq<BackupFile>
    decreases |listing|
  {
    if listing == [] then []
    else
      var rest := BackupCandidates(listing[1..], pattern, dir, files);
      match listing[0]
      case Unreadable => rest
      case Named(n) =>
        if StartsWith(n, pattern) then
          var p := Join(dir, n);
          [BackupFile(n, if p in files then files[p].mtime else 0)] + rest
        else rest
  }

  /** Names that do not start with the pattern are never candidates. */
  lemma {:induction false} NoMatchNoCandidates(listing: seq<DirEntry>, pattern: string, dir: Path, files: map<Path, Entry>)
    requires forall e | e in listing :: e.Named? ==> !StartsWith(e.fileName, pattern)
    ensures BackupCandidates(listing, pattern, dir, files) == []
    decreases |listing|
  {
    if listing != [] {
      assert listing[0] in listing;
      forall e | e in listing[1..] ensures e in listing { }
      NoMatchNoCandidates(listing[1..], pattern, dir, files);
    }
  }

  /**
   * The pattern `cleanup_old_backups` uses is the whole settings path
   * followed by `.backup.`, and it is compared with bare file names: a file
   * name has no separator while the pattern has one, so no file is ever
   * selected and the rotation removes nothing.
   */
  lemma CleanupAsWrittenRemovesNothing(claudeDir: Path, listing: seq<DirEntry>, files: map<Path, Entry>)
    requires forall e | e in listing :: e.Named? ==> '/' !in e.fileName
    ensures RotationVictims(BackupCandidates(listing, Join(claudeDir, LiveFileName) + ".backup.", claudeDir, files)) == []
  {
    var pattern := Join(claudeDir, LiveFileName) + ".backup.";
    assert pattern[|claudeDir|] == '/';
    forall e | e in listing && e.Named?
      ensures !StartsWith(e.fileName, pattern)
    {
      if StartsWith(e.fileName, pattern) {
        StartsWithContains(e.fileName, pattern, '/');
      }
    }
    NoMatchNoCandidates(listing, pattern, claudeDir, files);
  }

  /** The names of the backups a switch takes start with `settings.json.backup.`. */
  lemma BackupNamesMatchIntendedPattern(claudeDir: Path, timestamp: nat)
    ensures var name := LiveFileName + ".backup." + NatToString(timestamp);
      && BackupPath(Join(claudeDir, LiveFileName), timestamp) == Join(claudeDir, name)
      && StartsWith(name, LiveFileName + ".backup.")
      && '/' !in name
  {
    var name := LiveFileName + ".backup." + NatToString(timestamp);
    assert name[..|LiveFileName + ".backup."|] == LiveFileName + ".backup.";
    forall i | 0 <= i < |name| ensures name[i] != '/' {
      if i >= |LiveFileName + ".backup."| {
        assert name[i] == NatToString(timestamp)[i - |LiveFileName + ".backup."|];
      }
    }
  }

  // ---------------------------------------------------------------------
  // The service
  // ---------------------------------------------------------------------

  /** The content stored at `p`, if anything. */
  function ContentAt(files: map<Path, Entry>, p: Path): Option<string> {
    if p in files then Some(files[p].content) else None
  }

  /** Maps that agree outside `out` agree at every path not in `out`. */
  lemma AgreeOutside(a: map<Path, Entry>, b: map<Path, Entry>, out: set<Path>, p: Path)
    requires a - out == b - out && p !in out
    ensures EntryAt(a, p) == EntryAt(b, p) && ContentAt(a, p) == ContentAt(b, p)
  {
    assert p in a <==> p in a - out;
    assert p in b <==> p in b - out;
    if p in a {
      assert (a - out)[p] == a[p];
    }
    if p in b {
      assert (b - out)[p] == b[p];
    }
  }

  /** How a switch ended. */
  datatype SwitchOutcome =
    | Invalid        // refused before anything was written
    | AlreadyActive  // nothing to do
    | Aborted        // the write test or the backup failed
    | Committed      // the profile is live
    | RolledBack     // the switch failed and the backup was put back
    | RollbackFailed // the switch failed and so did the restore

  const RollbackFailedMsg: string := "Profile switch failed and rollback failed"

  /** The errors `perform_switch_atomic` can report. */
  const SwitchErrors: set<AppError> := {
    ConfigError("Invalid JSON content"),
    ConfigError("Configuration must be a JSON object"),
    FileSystemError("Failed to clean up temp file"),
    FileSystemError("Failed to write temporary file"),
    FileSystemError("Temp file verification failed - data corruption detected"),
    FileSystemError("Failed to replace settings file")
  }

  class ConfigService {
    const claudeDir: Path
    const settingsPath: Path
    const disk: Disk
    const codec: Codec
    const crc: Hasher
    var profiles: seq<Profile>
    var profileCache: map<Path, CacheEntry>
    var settingsCache: Option<SettingsSnapshot>

    /** The live file sits in the Claude directory and the JSON library reads back what it writes. */
    ghost predicate Valid() {
      Faithful(codec) && settingsPath == Join(claudeDir, LiveFileName)
    }

    constructor (claudeDir: Path, disk: Disk, codec: Codec, crc: Hasher)
      requires Faithful(codec)
      ensures Valid()
      ensures this.claudeDir == claudeDir && this.disk == disk && this.codec == codec && this.crc == crc
      ensures profiles == [] && profileCache == map[] && settingsCache == None
    {
      this.claudeDir := claudeDir;
      this.settingsPath := Join(claudeDir, LiveFileName);
      this.disk := disk;
      this.codec := codec;
      this.crc := crc;
      profiles := [];
      profileCache := map[];
      settingsCache := None;
    }

    /** The scan environment at time `now`. */
    function Env(now: nat): ScanEnv
      reads disk
    {
      ScanEnv(claudeDir, disk.files, now, codec, crc)
    }

    /** `clear_cache`. */
    method ClearCache()
      modifies this`profileCache, this`settingsCache
      ensures profileCache == map[] && settingsCache == None
    {
      profileCache := map[];
      settingsCache := None;
    }

    /** `get_file_content_cached`. */
    method GetFileContentCached(p: Path, now: nat) returns (r: Result<string>)
      modifies this`profileCache
      ensures r == ReadThroughCache(old(profileCache), disk.files, crc, p, now).result
      ensures profileCache == ReadThroughCache(old(profileCache), disk.files, crc, p, now).cache
    {
      if p in profileCache && IsCacheValid(profileCache[p].lastUpdated, now) {
        if disk.Exists(p) && disk.files[p].mtime <= profileCache[p].metadata.modifiedTime {
          return Ok(profileCache[p].content);
        }
      }
      var content := disk.Read(p);
      if content.Err? {
        return Err(FileSystemError("Failed to read file"));
      }
      var md := Fingerprint(disk.files, crc, p);
      if md.Ok? {
        profileCache := profileCache[p := CacheEntry(md.value, content.value, now)];
      }
      r := content;
    }

    /** `get_default_settings_cached`. */
    method GetDefaultSettingsCached(now: nat) returns (r: Result<string>)
      modifies this`settingsCache
      ensures r == ReadSettingsThroughCache(old(settingsCache), disk.files, settingsPath, now).result
      ensures settingsCache == ReadSettingsThroughCache(old(settingsCache), disk.files, settingsPath, now).cache
    {
      if settingsCache.Some? && IsCacheValid(settingsCache.value.cachedAt, now) {
        if disk.Exists(settingsPath) && disk.files[settingsPath].mtime <= settingsCache.value.cachedAt {
          return Ok(settingsCache.value.content);
        }
      }
      var content := disk.Read(settingsPath);
      if content.Err? {
        return Err(ConfigError(ReadDefaultFailed));
      }
      settingsCache := Some(SettingsSnapshot(content.value, now));
      r := content;
    }

    /** `load_profile_optimized`. */
    method LoadProfile(name: string, p: Path, now: nat) returns (r: Result<Profile>)
      modifies this`profileCache
      ensures r == LoadProfileFrom(Env(now), old(profileCache), name, p).result
      ensures profileCache == LoadProfileFrom(Env(now), old(profileCache), name, p).cache
    {
      if name == "" {
        return Err(ConfigError(EmptyNameMsg));
      }
      if |name| > MaxProfileNameLength {
        return Err(ConfigError(NameTooLongMsg));
      }
      var content := GetFileContentCached(p, now);
      if content.Err? {
        return Err(content.error);
      }
      if codec.parse(content.value).None? {
        return Err(ConfigError("Invalid JSON in profile " + name));
      }
      r := Ok(Profile(name, p, content.value, false));
    }

    /** `update_profile_status_optimized` on a list of profiles. */
    method UpdateProfileStatus(ps: seq<Profile>, now: nat) returns (qs: seq<Profile>)
      modifies this`settingsCache
      ensures qs == RefreshStatus(codec, old(settingsCache), disk.files, settingsPath, now, ps).profiles
      ensures settingsCache == RefreshStatus(codec, old(settingsCache), disk.files, settingsPath, now, ps).snapshot
    {
      if ps == [] {
        return ps;
      }
      var live := GetDefaultSettingsCached(now);
      var liveJson := LiveJson(codec, live);
      qs := [];
      var i := 0;
      while i < |ps|
        invariant 0 <= i <= |ps| && |qs| == i
        invariant forall j :: 0 <= j < i ==> qs[j] == ps[j].(isActive := ActiveAgainst(codec, liveJson, ps[j].content))
      {
        qs := qs + [ps[i].(isActive := ActiveAgainst(codec, liveJson, ps[i].content))];
        i := i + 1;
      }
      assert qs == MarkProfiles(codec, ps, liveJson);
    }

    /** `refresh_profile_status`; the status update cannot fail, so neither can this. */
    method RefreshProfileStatus(now: nat) returns (r: Result<()>)
      modifies this`profiles, this`settingsCache
      ensures r.Ok?
      ensures profiles == RefreshStatus(codec, old(settingsCache), disk.files, settingsPath, now, old(profiles)).profiles
      ensures settingsCache == RefreshStatus(codec, old(settingsCache), disk.files, settingsPath, now, old(profiles)).snapshot
    {
      var copy := UpdateProfileStatus(profiles, now);
      profiles := copy;
      r := Ok(());
    }

    /**
     * `scan_profiles`. `listing` is what `read_dir` yields, in its order,
     * or None when the directory cannot be listed.
     */
    method ScanProfiles(listing: Option<seq<DirEntry>>, now: nat) returns (r: Result<seq<Profile>>)
      modifies this`profiles, this`profileCache, this`settingsCache
      ensures claudeDir !in disk.files ==> r == Err(FileSystemError("Claude directory does not exist"))
      ensures claudeDir in disk.files && disk.files[claudeDir].isFile ==> r == Err(FileSystemError("Claude path is not a directory"))
      ensures r.Ok? <==> claudeDir in disk.files && !disk.files[claudeDir].isFile && listing.Some?
      ensures r.Err? ==> profiles == old(profiles) && profileCache == old(profileCache) && settingsCache == old(settingsCache)
      ensures r.Ok? ==>
        var scanned := ScanEntries(Env(now), old(profileCache), listing.value);
        && profileCache == scanned.cache
        && profiles == r.value
        && r.value == RefreshStatus(codec, old(settingsCache), disk.files, settingsPath, now, scanned.found).profiles
        && settingsCache == RefreshStatus(codec, old(settingsCache), disk.files, settingsPath, now, scanned.found).snapshot
      ensures r.Ok? ==> forall p | p in r.value ::
        p.name != "" && |p.name| <= MaxProfileNameLength
        && Named(p.name + ProfileSuffix) in listing.value
        && p.path == Join(claudeDir, p.name + ProfileSuffix)
        && codec.parse(p.content).Some?
    {
      if !disk.Exists(claudeDir) {
        return Err(FileSystemError("Claude directory does not exist"));
      }
      if disk.files[claudeDir].isFile {
        return Err(FileSystemError("Claude path is not a directory"));
      }
      if listing.None? {
        return Err(FileSystemError("Failed to read Claude directory"));
      }
      var es := listing.value;
      ghost var cache0 := profileCache;
      var found: seq<Profile> := [];
      var i := 0;
      while i < |es|
        invariant 0 <= i <= |es|
        invariant ScanState(found, profileCache) == ScanEntries(Env(now), cache0, es[..i])
        invariant settingsCache == old(settingsCache)
      {
        assert es[..i + 1][..i] == es[..i];
        match es[i] {
          case Unreadable =>
          case Named(n) =>
            var stem := ProfileStem(n);
            if stem.Some? {
              var loaded := LoadProfile(stem.value, Join(claudeDir, n), now);
              if loaded.Ok? {
                found := found + [loaded.value];
              }
            }
        }
        i := i + 1;
      }
      assert es[..i] == es;
      ScanEntriesSound(Env(now), cache0, es);
      var marked := UpdateProfileStatus(found, now);
      forall k | 0 <= k < |marked|
        ensures ScannedFrom(Env(now), es, marked[k].(isActive := false))
      {
        assert ScannedFrom(Env(now), es, found[k]);
        assert marked[k].(isActive := false) == found[k];
      }
      profiles := marked;
      r := Ok(marked);
    }

    /** `get_detailed_profile_status`: the live file is read afresh, without the cache. */
    method GetDetailedProfileStatus(profileContent: string) returns (s: ProfileStatus)
      ensures s == DetailedStatus(codec, TextAt(disk.files, settingsPath), profileContent)
    {
      var live := disk.Read(settingsPath);
      if live.Err? {
        return Error(ReadDefaultFailed);
      }
      var liveJson := codec.parse(live.value);
      var profileJson := codec.parse(profileContent);
      if liveJson.None? {
        return Error(InvalidDefaultJson);
      }
      if profileJson.None? {
        return Error(InvalidProfileJson);
      }
      if profileJson.value == liveJson.value {
        return FullMatch;
      }
      if EqualIgnoringField(profileJson.value, liveJson.value, IgnoredField) {
        return PartialMatch;
      }
      s := NoMatch;
    }

    /** `compare_profiles`: the detailed status of every profile, in order. */
    method CompareProfiles() returns (statuses: seq<ProfileStatus>)
      ensures |statuses| == |profiles|
      ensures forall i :: 0 <= i < |profiles| ==>
        statuses[i] == DetailedStatus(codec, TextAt(disk.files, settingsPath), profiles[i].content)
    {
      statuses := [];
      var i := 0;
      while i < |profiles|
        invariant 0 <= i <= |profiles| && |statuses| == i
        invariant forall j :: 0 <= j < i ==>
          statuses[j] == DetailedStatus(codec, TextAt(disk.files, settingsPath), profiles[j].content)
      {
        var s := GetDetailedProfileStatus(profiles[i].content);
        statuses := statuses + [s];
        i := i + 1;
      }
    }

    /** `get_profile_status`: the first profile of that name, or an error naming it. */
    method GetProfileStatus(name: string) returns (s: ProfileStatus)
      ensures FirstNamed(profiles, name).None? ==> s == Error("Profile '" + name + "' not found")
      ensures FirstNamed(profiles, name).Some? ==>
        s == DetailedStatus(codec, TextAt(disk.files, settingsPath), profiles[FirstNamed(profiles, name).value].content)
    {
      var found := FirstNamed(profiles, name);
      if found.None? {
        return Error("Profile '" + name + "' not found");
      }
      s := GetDetailedProfileStatus(profiles[found.value].content);
    }

    /** `get_monitored_files`: the live file, then every profile file in order. */
    method GetMonitoredFiles() returns (paths: seq<Path>)
      ensures |paths| == |profiles| + 1 && paths[0] == settingsPath
      ensures forall i :: 0 <= i < |profiles| ==> paths[i + 1] == profiles[i].path
    {
      paths := [settingsPath];
      var i := 0;
      while i < |profiles|
        invariant 0 <= i <= |profiles| && |paths| == i + 1 && paths[0] == settingsPath
        invariant forall j :: 0 <= j < i ==> paths[j + 1] == profiles[j].path
      {
        paths := paths + [profiles[i].path];
        i := i + 1;
      }
    }

    /** `validate_switch`: does the live file hold the same JSON as the profile? */
    method ValidateSwitch(name: string) returns (r: Result<bool>)
      ensures FirstNamed(profiles, name).None? ==> r == Err(ConfigError("Profile '" + name + "' not found"))
      ensures FirstNamed(profiles, name).Some? && !Readable(disk.files, settingsPath) ==> r == Err(ConfigError(ReadDefaultFailed))
      ensures r.Ok? <==> FirstNamed(profiles, name).Some? && Readable(disk.files, settingsPath)
      ensures r.Ok? ==>
        (FirstNamed(profiles, name).Some? && Readable(disk.files, settingsPath)
         && (r.value <==> SameConfiguration(codec, profiles[FirstNamed(profiles, name).value].content, disk.files[settingsPath].content)))
    {
      var found := FirstNamed(profiles, name);
      if found.None? {
        return Err(ConfigError("Profile '" + name + "' not found"));
      }
      var live := disk.Read(settingsPath);
      if live.Err? {
        return Err(ConfigError(ReadDefaultFailed));
      }
      var a := codec.parse(profiles[found.value].content);
      var b := codec.parse(live.value);
      r := Ok(a.Some? && b.Some? && a.value == b.value);
    }

    /** `create_backup`: a copy of the live file. */
    method CreateBackup(backup: Path, now: nat) returns (r: Result<()>)
      modifies disk`files, disk`log
      ensures r.Ok? <==> old(Readable(disk.files, settingsPath) && disk.Writable(backup))
      ensures r.Ok? ==> disk.files == old(disk.files)[backup := Entry(true, true, old(disk.files[settingsPath].content), |old(disk.files[settingsPath].content)|, now)]
      ensures r.Ok? ==> disk.log == old(disk.log) + [Copied(settingsPath, backup)]
      ensures r.Err? ==> disk.files == old(disk.files) && disk.log == old(disk.log)
    {
      var ok := disk.Copy(settingsPath, backup, now);
      if !ok {
        return Err(FileSystemError("Failed to create backup"));
      }
      r := Ok(());
    }

    /**
     * Writing `data` through the temporary file and renaming it over the
     * live file goes through: the temporary file can be replaced and keeps
     * what is written to it, and the live file can be replaced.
     */
    predicate CanReplaceLive(data: string)
      reads disk
    {
      disk.Writable(TempPath(settingsPath)) && Stored(disk.torn, TempPath(settingsPath), data) == data
      && disk.Writable(settingsPath)
    }

    /**
     * The first half of `perform_switch_atomic`: any stale temporary file is
     * removed, `data` is written to a fresh one and read back.
     */
    method WriteVerifiedTemp(data: string, now: nat) returns (r: Result<()>)
      modifies disk`files, disk`log
      ensures r.Ok? ==> TextAt(disk.files, TempPath(settingsPath)) == Some(data)
      ensures r.Ok? <==> old(disk.Writable(TempPath(settingsPath))) && Stored(disk.torn, TempPath(settingsPath), data) == data
      ensures r.Err? ==> r.error in SwitchErrors
      ensures disk.files - {TempPath(settingsPath)} == old(disk.files) - {TempPath(settingsPath)}
      ensures old(disk.log) <= disk.log
    {
      var temp := TempPath(settingsPath);
      if disk.Exists(temp) {
        var removed := disk.Remove(temp);
        if !removed {
          return Err(FileSystemError("Failed to clean up temp file"));
        }
      }
      var wrote := disk.Write(temp, data, now);
      if !wrote {
        return Err(FileSystemError("Failed to write temporary file"));
      }
      var check := disk.Read(temp);
      if check != Ok(data) {
        var cleaned := disk.Remove(temp);
        return Err(FileSystemError("Temp file verification failed - data corruption detected"));
      }
      r := Ok(());
    }

    /**
     * `perform_switch_atomic`: the pretty-printed object is written to a
     * temporary file, read back, renamed over the live file and read back
     * again. Every failure happens before the rename, so a failed switch
     * leaves the live file as it was.
     */
    method PerformSwitchAtomic(content: string, now: nat) returns (r: Result<()>)
      modifies disk`files, disk`log
      ensures codec.parse(content).None? ==> r == Err(ConfigError("Invalid JSON content")) && disk.files == old(disk.files)
      ensures codec.parse(content).Some? && !codec.parse(content).value.JObj? ==>
        r == Err(ConfigError("Configuration must be a JSON object")) && disk.files == old(disk.files)
      ensures r.Ok? ==>
        (codec.parse(content).Some? && codec.parse(content).value.JObj?
         && TextAt(disk.files, settingsPath) == Some(codec.pretty(codec.parse(content).value)))
      ensures r.Ok? <==> codec.parse(content).Some? && codec.parse(content).value.JObj?
                         && old(CanReplaceLive(codec.pretty(codec.parse(content).value)))
      ensures r.Err? ==> r.error in SwitchErrors
      ensures r.Err? ==> EntryAt(disk.files, settingsPath) == old(EntryAt(disk.files, settingsPath))
      ensures disk.files - {settingsPath, TempPath(settingsPath)} == old(disk.files) - {settingsPath, TempPath(settingsPath)}
      ensures old(disk.log) <= disk.log
    {
      var parsed := codec.parse(content);
      if parsed.None? {
        return Err(ConfigError("Invalid JSON content"));
      }
      var v := parsed.value;
      if !v.JObj? {
        return Err(ConfigError("Configuration must be a JSON object"));
      }
      var normalized := codec.pretty(v);
      var temp := TempPath(settingsPath);
      assert |temp| != |settingsPath|;
      ghost var before := disk.files;
      r := WriteVerifiedTemp(normalized, now);
      AgreeOutside(disk.files, before, {temp}, settingsPath);
      AgreeOutsideWider(disk.files, before, {temp}, {settingsPath, temp});
      if r.Err? {
        return;
      }
      var moved := disk.Rename(temp, settingsPath);
      if !moved {
        var cleaned := disk.Remove(temp);
        return Err(FileSystemError("Failed to replace settings file"));
      }
      var final := disk.Read(settingsPath);
      assert final == Ok(normalized);
      r := Ok(());
    }

    const BackupInvalidJson: string := "Backup file contains invalid JSON"

    /**
     * A restore from `backup` goes through: the backup is a readable file
     * holding JSON, and the restore file and the live file can be replaced.
     */
    predicate CanRestore(backup: Path)
      reads disk
    {
      Readable(disk.files, backup) && codec.parse(disk.files[backup].content).Some?
      && disk.Writable(RestoreTempPath(settingsPath)) && disk.Writable(settingsPath)
    }

    /** The pre-flight of a switch at `now` goes through: the test write and the backup copy. */
    predicate CanBackUp(now: nat)
      reads disk
    {
      disk.Writable(WriteTestPath(settingsPath)) && Readable(disk.files, settingsPath)
      && disk.Writable(BackupPath(settingsPath, now))
    }

    /**
     * A backup of the present live file could be restored: it holds JSON,
     * and the restore file and the live file can be replaced.
     */
    predicate CanRestoreLive()
      reads disk
    {
      settingsPath in disk.files && codec.parse(disk.files[settingsPath].content).Some?
      && disk.Writable(RestoreTempPath(settingsPath)) && settingsPath !in disk.locked
    }

    /**
     * `restore_from_backup`: a backup holding JSON is copied next to the
     * live file and renamed over it; the backup is then removed.
     */
    method RestoreFromBackup(backup: Path, now: nat) returns (r: Result<()>)
      requires backup != settingsPath && backup != RestoreTempPath(settingsPath)
      modifies disk`files, disk`log
      ensures old(Readable(disk.files, backup)) && codec.parse(old(disk.files[backup].content)).None? ==>
        r == Err(ConfigError(BackupInvalidJson))
      ensures r.Ok? ==>
        (old(Readable(disk.files, backup)) && codec.parse(old(disk.files[backup].content)).Some?
         && ContentAt(disk.files, settingsPath) == Some(old(disk.files[backup].content)))
      ensures r.Err? ==> EntryAt(disk.files, settingsPath) == old(EntryAt(disk.files, settingsPath))
      ensures r.Ok? <==> old(CanRestore(backup))
      ensures old(backup !in disk.files) ==> r == Err(FileSystemError("Backup file does not exist")) && disk.files == old(disk.files)
      ensures old(backup in disk.files && !Readable(disk.files, backup)) ==>
        r == Err(FileSystemError("Failed to read backup file")) && disk.files == old(disk.files)
      ensures r.Ok? && backup !in disk.locked ==> backup !in disk.files
      ensures r.Ok? ==> RestoreTempPath(settingsPath) !in disk.files
      ensures r.Err? ==> disk.files - {RestoreTempPath(settingsPath)} == old(disk.files) - {RestoreTempPath(settingsPath)}
      ensures disk.files - {settingsPath, RestoreTempPath(settingsPath), backup}
        == old(disk.files) - {settingsPath, RestoreTempPath(settingsPath), backup}
      ensures old(disk.log) <= disk.log
    {
      if !disk.Exists(backup) {
        return Err(FileSystemError("Backup file does not exist"));
      }
      var read := disk.Read(backup);
      if read.Err? {
        return Err(FileSystemError("Failed to read backup file"));
      }
      if codec.parse(read.value).None? {
        return Err(ConfigError(BackupInvalidJson));
      }
      var temp := RestoreTempPath(settingsPath);
      assert |temp| != |settingsPath|;
      var copied := disk.Copy(backup, temp, now);
      if !copied {
        return Err(FileSystemError("Failed to copy backup to temp"));
      }
      var moved := disk.Rename(temp, settingsPath);
      if !moved {
        var cleaned := disk.Remove(temp);
        return Err(FileSystemError("Failed to restore from backup"));
      }
      var removed := disk.Remove(backup);
      r := Ok(());
    }

    /**
     * The pre-flight part of `switch_profile`: a test write next to the live
     * file (removed again), then the timestamped backup. The live file is
     * left alone, and none of the logged operations before the backup copy
     * touches it.
     */
    method PrepareSwitch(now: nat) returns (r: Result<()>, ghost untouched: seq<Op>)
      modifies disk`files, disk`log
      ensures EntryAt(disk.files, settingsPath) == old(EntryAt(disk.files, settingsPath))
      ensures forall k :: 0 <= k < |untouched| ==> !Replaces(untouched[k], settingsPath)
      ensures r.Err? ==> disk.log == old(disk.log) + untouched
      ensures r.Ok? ==> disk.log == old(disk.log) + untouched + [Copied(settingsPath, BackupPath(settingsPath, now))]
      ensures r.Ok? ==>
        (Readable(old(disk.files), settingsPath)
         && ContentAt(disk.files, BackupPath(settingsPath, now)) == Some(old(disk.files[settingsPath].content)))
      ensures r.Ok? <==> old(CanBackUp(now))
      ensures r.Ok? ==> Readable(disk.files, BackupPath(settingsPath, now))
      ensures r.Err? ==> (r == Err(FileSystemError("Cannot write to settings directory"))
        || r == Err(FileSystemError("Failed to create backup before switching")))
      ensures disk.files - {WriteTestPath(settingsPath), BackupPath(settingsPath, now)}
        == old(disk.files) - {WriteTestPath(settingsPath), BackupPath(settingsPath, now)}
    {
      SwitchPathsDistinct(settingsPath, now);
      var testPath := WriteTestPath(settingsPath);
      ghost var log0 := disk.log;
      var probe := disk.Write(testPath, "test", now);
      if !probe {
        untouched := [];
        return Err(FileSystemError("Cannot write to settings directory")), untouched;
      }
      var cleaned := disk.Remove(testPath);
      untouched := disk.log[|log0|..];
      var backedUp := CreateBackup(BackupPath(settingsPath, now), now);
      if backedUp.Err? {
        return Err(FileSystemError("Failed to create backup before switching")), untouched;
      }
      r := Ok(());
    }

    /**
     * The writing part of `switch_profile`: the pre-flight test and backup,
     * the atomic replacement, and the restore from the backup when the
     * replacement fails.
     */
    method BackUpAndReplace(content: string, now: nat) returns (r: Result<()>, ghost outcome: SwitchOutcome)
      requires codec.parse(content).Some? && settingsPath in disk.files
      modifies disk`files, disk`log
      ensures outcome in {Aborted, Committed, RolledBack, RollbackFailed}
      ensures r.Ok? <==> outcome == Committed
      ensures r.Err? ==> ContentAt(disk.files, settingsPath) == old(ContentAt(disk.files, settingsPath))
      ensures old(|disk.log|) <= |disk.log| && CopiedBeforeReplaced(disk.log[old(|disk.log|)..], settingsPath)
      ensures outcome == Committed ==>
        (codec.parse(content).value.JObj?
         && TextAt(disk.files, settingsPath) == Some(codec.pretty(codec.parse(content).value)))
      ensures outcome == Aborted <==> !old(CanBackUp(now))
      ensures outcome == Committed <==>
        old(CanBackUp(now)) && codec.parse(content).value.JObj? && old(CanReplaceLive(codec.pretty(codec.parse(content).value)))
      ensures outcome == Aborted ==> (r == Err(FileSystemError("Cannot write to settings directory"))
        || r == Err(FileSystemError("Failed to create backup before switching")))
      ensures old(CanBackUp(now)) && !codec.parse(content).value.JObj? ==> outcome == RolledBack || outcome == RollbackFailed
      ensures outcome == RolledBack || outcome == RollbackFailed ==> (outcome == RolledBack <==> old(CanRestoreLive()))
      ensures outcome == RolledBack ==> r.Err? && r.error in SwitchErrors
      ensures outcome == RolledBack && !codec.parse(content).value.JObj? ==> r == Err(ConfigError("Configuration must be a JSON object"))
      ensures outcome == RollbackFailed ==> r == Err(ConfigError(RollbackFailedMsg))
    {
      SwitchPathsDistinct(settingsPath, now);
      var backup := BackupPath(settingsPath, now);
      ghost var log0 := disk.log;
      ghost var liveBefore := disk.files[settingsPath];
      ghost var files0 := disk.files;
      var prepared, untouched := PrepareSwitch(now);
      if prepared.Err? {
        outcome := Aborted;
        r := prepared;
        assert disk.log[|log0|..] == untouched;
        UntouchedIsCopiedBeforeReplaced(untouched, settingsPath);
        return;
      }
      ghost var log2 := disk.log;
      assert ContentAt(disk.files, backup) == Some(liveBefore.content);
      ghost var before := disk.files;
      ghost var data := codec.pretty(codec.parse(content).value);
      AgreeOutside(before, files0, {WriteTestPath(settingsPath), backup}, TempPath(settingsPath));
      assert CanReplaceLive(data) == old(CanReplaceLive(data));
      var switched := PerformSwitchAtomic(content, now);
      AgreeOutside(disk.files, before, {settingsPath, TempPath(settingsPath)}, backup);
      if switched.Ok? {
        outcome := Committed;
        r := Ok(());
      } else {
        var restoreTemp := RestoreTempPath(settingsPath);
        AgreeOutside(before, files0, {WriteTestPath(settingsPath), backup}, restoreTemp);
        AgreeOutside(disk.files, before, {settingsPath, TempPath(settingsPath)}, restoreTemp);
        assert EntryAt(disk.files, settingsPath) == EntryAt(files0, settingsPath);
        assert Readable(disk.files, backup) && disk.files[backup].content == liveBefore.content;
        assert disk.Writable(restoreTemp) == old(disk.Writable(restoreTemp));
        assert CanRestore(backup) <==> old(CanRestoreLive());
        var restored := RestoreFromBackup(backup, now);
        if restored.Err? {
          outcome := RollbackFailed;
          r := Err(ConfigError(RollbackFailedMsg));
        } else {
          outcome := RolledBack;
          r := switched;
        }
      }
      assert disk.log[|log0|..] == untouched + [Copied(settingsPath, backup)] + disk.log[|log2|..];
      CopiedBeforeReplacedAfter(untouched, Copied(settingsPath, backup), disk.log[|log2|..], settingsPath);
    }

    /**
     * What follows a committed switch: the caches are dropped and the
     * activation flags recomputed against the new live file.
     */
    method FinishSwitch(now: nat, ghost v: Json)
      requires Valid() && TextAt(disk.files, settingsPath) == Some(codec.pretty(v))
      modifies this`profiles, this`profileCache, this`settingsCache
      ensures old(profiles) != [] ==> profiles == MarkProfiles(codec, old(profiles), Some(v))
      ensures old(profiles) != [] ==> settingsCache == Some(SettingsSnapshot(codec.pretty(v), now))
      ensures profileCache == map[]
    {
      ClearCache();
      var refreshed := RefreshProfileStatus(now);
      assert LiveJson(codec, Ok(codec.pretty(v))) == Some(v);
    }

    /** The profile `switch_profile` looks for: the first of that name, for a non-empty name. */
    function Target(name: string): Option<Profile>
      reads this
    {
      if name == "" then None
      else match FirstNamed(profiles, name)
        case None => None
        case Some(i) => Some(profiles[i])
    }

    /**
     * `switch_profile` at time `now`. A switch that fails leaves the live
     * content as it was; a copy of the live file is always taken before
     * anything replaces it; a committed switch leaves the profile's JSON,
     * pretty-printed, in the live file and the profile marked active.
     * The backup cleanup that follows a committed switch selects no file
     * (see `CleanupAsWrittenRemovesNothing`) and is not repeated here.
     */
    method SwitchProfile(name: string, now: nat) returns (r: Result<()>, ghost outcome: SwitchOutcome)
      requires Valid()
      modifies this`profiles, this`profileCache, this`settingsCache, disk`files, disk`log
      ensures r.Ok? <==> outcome == AlreadyActive || outcome == Committed
      ensures name == "" ==> r == Err(ConfigError(EmptyNameMsg))
      ensures name != "" && old(FirstNamed(profiles, name)).None? ==> r == Err(ConfigError("Profile '" + name + "' not found"))
      ensures outcome == AlreadyActive <==>
        name != "" && old(FirstNamed(profiles, name)).Some? && old(profiles[FirstNamed(profiles, name).value].isActive)
      ensures outcome == Invalid <==>
        old(Target(name)).None?
        || (!old(Target(name)).value.isActive
            && (codec.parse(old(Target(name)).value.content).None? || old(settingsPath !in disk.files)))
      ensures (old(Target(name)).Some? && !old(Target(name)).value.isActive
               && codec.parse(old(Target(name)).value.content).None?) ==>
        r == Err(ConfigError("Profile '" + name + "' contains invalid JSON"))
      ensures (old(Target(name)).Some? && !old(Target(name)).value.isActive
               && codec.parse(old(Target(name)).value.content).Some? && old(settingsPath !in disk.files)) ==>
        r == Err(FileSystemError("Default settings file does not exist"))
      ensures outcome == Aborted <==>
        old(Target(name)).Some? && !old(Target(name)).value.isActive
        && codec.parse(old(Target(name)).value.content).Some? && old(settingsPath in disk.files)
        && !old(CanBackUp(now))
      ensures outcome == Aborted ==> (r == Err(FileSystemError("Cannot write to settings directory"))
        || r == Err(FileSystemError("Failed to create backup before switching")))
      ensures (old(Target(name)).Some? && !old(Target(name)).value.isActive
               && codec.parse(old(Target(name)).value.content).Some?
               && !codec.parse(old(Target(name)).value.content).value.JObj?
               && old(settingsPath in disk.files) && old(CanBackUp(now))) ==>
        outcome == RolledBack || outcome == RollbackFailed
      ensures (old(Target(name)).Some? && !old(Target(name)).value.isActive
               && codec.parse(old(Target(name)).value.content).Some? && old(settingsPath in disk.files)) ==>
        (outcome == Committed <==>
           old(CanBackUp(now)) && codec.parse(old(Target(name)).value.content).value.JObj?
           && old(CanReplaceLive(codec.pretty(codec.parse(Target(name).value.content).value))))
      ensures outcome == RolledBack || outcome == RollbackFailed ==> (outcome == RolledBack <==> old(CanRestoreLive()))
      ensures outcome == RolledBack ==> r.Err? && r.error in SwitchErrors
      ensures outcome == RollbackFailed ==> r == Err(ConfigError(RollbackFailedMsg))
      ensures outcome == Invalid || outcome == AlreadyActive ==>
        disk.files == old(disk.files) && disk.log == old(disk.log)
        && profiles == old(profiles) && profileCache == old(profileCache) && settingsCache == old(settingsCache)
      ensures r.Err? ==> ContentAt(disk.files, settingsPath) == old(ContentAt(disk.files, settingsPath))
      ensures old(|disk.log|) <= |disk.log| && CopiedBeforeReplaced(disk.log[old(|disk.log|)..], settingsPath)
      ensures outcome == Committed ==>
        old(FirstNamed(profiles, name)).Some?
        && var i := old(FirstNamed(profiles, name)).value;
        && codec.parse(old(profiles[i].content)).Some?
        && var v := codec.parse(old(profiles[i].content)).value;
        && v.JObj?
        && TextAt(disk.files, settingsPath) == Some(codec.pretty(v))
        && profiles == MarkProfiles(codec, old(profiles), Some(v))
        && profiles[i].isActive
        && SameConfiguration(codec, profiles[i].content, codec.pretty(v))
        && profileCache == map[] && settingsCache == Some(SettingsSnapshot(codec.pretty(v), now))
    {
      if name == "" {
        outcome := Invalid;
        r := Err(ConfigError(EmptyNameMsg));
        return;
      }
      var found := FirstNamed(profiles, name);
      if found.None? {
        outcome := Invalid;
        r := Err(ConfigError("Profile '" + name + "' not found"));
        return;
      }
      var profile := profiles[found.value];
      if profile.isActive {
        outcome := AlreadyActive;
        r := Ok(());
        return;
      }
      if codec.parse(profile.content).None? {
        outcome := Invalid;
        r := Err(ConfigError("Profile '" + name + "' contains invalid JSON"));
        return;
      }
      if !disk.Exists(settingsPath) {
        outcome := Invalid;
        r := Err(FileSystemError("Default settings file does not exist"));
        return;
      }
      ghost var v := codec.parse(profile.content).value;
      r, outcome := BackUpAndReplace(profile.content, now);
      if r.Ok? {
        FinishSwitch(now, v);
        MarkProfilesMeaning(codec, old(profiles), Some(v), found.value);
      }
    }
  }

  /** `p` is absent or a file, so a file may be put there. */
  predicate NoDirectoryAt(files: map<Path, Entry>, p: Path) {
    p in files ==> files[p].isFile
  }

  /**
   * On a disk where nothing is locked or torn and none of the switch's side
   * files is a directory, a switch from a readable live file passes the
   * pre-flight and its replacement goes through, whatever the data.
   */
  lemma HealthyDiskSwitches(s: ConfigService, now: nat, data: string)
    requires s.disk.locked == {} && s.disk.torn == {}
    requires Readable(s.disk.files, s.settingsPath)
    requires NoDirectoryAt(s.disk.files, WriteTestPath(s.settingsPath))
    requires NoDirectoryAt(s.disk.files, TempPath(s.settingsPath))
    requires NoDirectoryAt(s.disk.files, BackupPath(s.settingsPath, now))
    ensures s.CanBackUp(now) && s.CanReplaceLive(data)
  {
  }
}
