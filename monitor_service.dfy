/**
 * The change monitor of `monitor_service.rs`: a bounded watch list, a cache
 * of file fingerprints, two ways of deciding that a file changed, the
 * per-file Created/Modified/Deleted diff, and the error counting of the
 * polling loop.
 */
module Monitor {
  import opened Types
  import opened Storage

  const MaxMonitoredFiles: nat := 50
  /** Files larger than 10 MiB are not watched. */
  const MaxWatchedFileSize: nat := 10 * 1024 * 1024
  /** Files larger than 1 MiB get the placeholder checksum 0 from the quick probe. */
  const MaxChecksummedSize: nat := 1024 * 1024
  const MaxCacheSize: nat := 100
  const MaxScanErrors: nat := 10
  const BackoffStepSeconds: nat := 30
  const BackoffCapSeconds: nat := 300

  predicate NoDuplicates(s: seq<Path>) {
    forall i, j :: 0 <= i < j < |s| ==> s[i] != s[j]
  }

  // ---------------------------------------------------------------------
  // Probing a file and deciding whether it changed
  // ---------------------------------------------------------------------

  /**
   * `get_file_metadata_optimized`: fails only when the path is missing; the
   * checksum is 0 for files over 1 MiB and for content that cannot be read.
   */
  function QuickProbe(files: map<Path, Entry>, crc: Hasher, p: Path): (r: Result<FileMetadata>)
    ensures r.Ok? <==> p in files
    ensures r.Ok? ==> r.value.modifiedTime == files[p].mtime && r.value.size == files[p].size
    ensures r.Ok? ==>
      r.value.checksum == if files[p].size > MaxChecksummedSize || !Readable(files, p) then 0 else crc(files[p].content)
  {
    if p !in files then Err(FileSystemError("Failed to get file metadata"))
    else
      var checksum: u32 :=
        if files[p].size > MaxChecksummedSize then 0
        else if Readable(files, p) then crc(files[p].content)
        else 0;
      Ok(FileMetadata(files[p].mtime, checksum, files[p].size))
  }

  /** The full probe and the quick probe agree on a readable file of at most 1 MiB. */
  lemma ProbesAgreeOnSmallFiles(files: map<Path, Entry>, crc: Hasher, p: Path)
    requires Readable(files, p) && files[p].size <= MaxChecksummedSize
    ensures QuickProbe(files, crc, p) == Fingerprint(files, crc, p)
  {
  }

  /** `compare_metadata_optimized`, written as the early exits of the source. */
  predicate ChangedQuick(cached: FileMetadata, current: FileMetadata) {
    if cached.modifiedTime != current.modifiedTime then true
    else if cached.size != current.size then true
    else if cached.checksum != 0 && current.checksum != 0 && cached.checksum != current.checksum then true
    else false
  }

  /** `compare_metadata`: a new mtime counts only together with a new size or checksum. */
  predicate ChangedStrict(cached: FileMetadata, current: FileMetadata) {
    if cached.modifiedTime != current.modifiedTime then
      if cached.size != current.size then true
      else if cached.checksum != current.checksum then true
      else false
    else false
  }

  /**
   * What the two comparisons mean: the quick one flags any difference in
   * mtime or size, or two real checksums that differ; the strict one
   * needs a new mtime and a new size or checksum.
   */
  lemma ChangeRules(a: FileMetadata, b: FileMetadata)
    ensures ChangedQuick(a, b) <==>
      a.modifiedTime != b.modifiedTime || a.size != b.size
      || (a.checksum != 0 && b.checksum != 0 && a.checksum != b.checksum)
    ensures ChangedStrict(a, b) <==>
      a.modifiedTime != b.modifiedTime && (a.size != b.size || a.checksum != b.checksum)
    ensures ChangedStrict(a, b) ==> ChangedQuick(a, b)
    ensures a.modifiedTime == b.modifiedTime ==> !ChangedStrict(a, b)
    ensures a.modifiedTime == b.modifiedTime && a.size == b.size && (a.checksum == 0 || b.checksum == 0) ==> !ChangedQuick(a, b)
  {
  }

  /** A file touched without a change of content: the quick rule reports it, the strict rule does not. */
  lemma TouchSeparatesTheRules(a: FileMetadata, t: nat)
    requires t != a.modifiedTime
    ensures ChangedQuick(a, a.(modifiedTime := t)) && !ChangedStrict(a, a.(modifiedTime := t))
  {
  }

  /** The comparison examples: identical fingerprints are unchanged, a new time, size and checksum is a change. */
  lemma StrictComparisonExamples(later: nat)
    requires later > 0
    ensures !ChangedStrict(FileMetadata(0, 123, 100), FileMetadata(0, 123, 100))
    ensures ChangedStrict(FileMetadata(0, 123, 100), FileMetadata(later, 456, 200))
  {
  }

  // ---------------------------------------------------------------------
  // The per-file diff
  // ---------------------------------------------------------------------

  /** `scan_single_file` against a snapshot of the cache. */
  function ScanSingleFile(files: map<Path, Entry>, crc: Hasher, snapshot: map<Path, FileMetadata>, p: Path)
    : Result<seq<ConfigFileChange>>
  {
    if p !in files then
      if p in snapshot then Ok([ConfigFileChange(p, Deleted)]) else Ok([])
    else
      match QuickProbe(files, crc, p)
      case Err(_) => Err(FileSystemError("Failed to get metadata"))
      case Ok(current) =>
        if p !in snapshot then Ok([ConfigFileChange(p, Created)])
        else if ChangedQuick(snapshot[p], current) then Ok([ConfigFileChange(p, Modified)])
        else Ok([])
  }

  /**
   * The events of one file: Deleted for a cached file that is gone, Created
   * (and nothing else) for a file that is not cached, Modified for a
   * cached file the quick rule finds changed, and never an error.
   */
  lemma ScanSingleFileEvents(files: map<Path, Entry>, crc: Hasher, snapshot: map<Path, FileMetadata>, p: Path)
    ensures ScanSingleFile(files, crc, snapshot, p).Ok?
    ensures var cs := ScanSingleFile(files, crc, snapshot, p).value;
      && |cs| <= 1
      && (forall c | c in cs :: c.filePath == p)
      && (cs == [ConfigFileChange(p, Deleted)] <==> p !in files && p in snapshot)
      && (cs == [ConfigFileChange(p, Created)] <==> p in files && p !in snapshot)
      && (cs == [ConfigFileChange(p, Modified)] <==>
            p in files && p in snapshot && ChangedQuick(snapshot[p], QuickProbe(files, crc, p).value))
  {
  }

  /** The events of a whole scan, file by file in watch-list order; files that fail are skipped. */
  function ScanChanges(files: map<Path, Entry>, crc: Hasher, snapshot: map<Path, FileMetadata>, ps: seq<Path>)
    : seq<ConfigFileChange>
    decreases |ps|
  {
    if ps == [] then []
    else
      var before := ScanChanges(files, crc, snapshot, ps[..|ps| - 1]);
      match ScanSingleFile(files, crc, snapshot, ps[|ps| - 1])
      case Ok(cs) => before + cs
      case Err(_) => before
  }

  /**
   * Every watched file without a cache entry is reported as Created; this is
   * how a path evicted from the watch list after the polling task took its
   * copy comes back.
   */
  lemma {:induction false} UncachedFilesAreCreated(files: map<Path, Entry>, crc: Hasher,
                                                   snapshot: map<Path, FileMetadata>, ps: seq<Path>, p: Path)
    requires p in ps && p in files && p !in snapshot
    ensures ConfigFileChange(p, Created) in ScanChanges(files, crc, snapshot, ps)
    decreases |ps|
  {
    var last := ps[|ps| - 1];
    ScanSingleFileEvents(files, crc, snapshot, last);
    if last != p {
      var k :| 0 <= k < |ps| && ps[k] == p;
      assert ps[..|ps| - 1][k] == p;
      UncachedFilesAreCreated(files, crc, snapshot, ps[..|ps| - 1], p);
    }
  }

  /** Every event names a watched path, and no path of a duplicate-free list gets two events. */
  lemma {:induction false} ScanChangesPerPath(files: map<Path, Entry>, crc: Hasher, snapshot: map<Path, FileMetadata>, ps: seq<Path>)
    requires NoDuplicates(ps)
    ensures var cs := ScanChanges(files, crc, snapshot, ps);
      && |cs| <= |ps|
      && (forall i :: 0 <= i < |cs| ==> cs[i].filePath in ps)
      && (forall i, j :: 0 <= i < j < |cs| ==> cs[i].filePath != cs[j].filePath)
    decreases |ps|
  {
    if ps != [] {
      var init := ps[..|ps| - 1];
      var last := ps[|ps| - 1];
      ScanChangesPerPath(files, crc, snapshot, init);
      ScanSingleFileEvents(files, crc, snapshot, last);
      var before := ScanChanges(files, crc, snapshot, init);
      var cs := ScanChanges(files, crc, snapshot, ps);
      assert last !in init by {
        forall k | 0 <= k < |init| ensures init[k] != last {
          assert init[k] == ps[k];
        }
      }
      forall i | 0 <= i < |before| ensures before[i].filePath in ps {
        assert before[i].filePath in init;
      }
      forall i | 0 <= i < |before| ensures before[i].filePath != last {
        assert before[i].filePath in init;
      }
    }
  }

  /** One entry of the batch update after a scan. */
  function ApplyChange(files: map<Path, Entry>, crc: Hasher, m: map<Path, FileMetadata>, c: ConfigFileChange)
    : map<Path, FileMetadata>
  {
    match c.changeType
    case Deleted => m - {c.filePath}
    case _ =>
      match QuickProbe(files, crc, c.filePath)
      case Ok(md) => m[c.filePath := md]
      case Err(_) => m
  }

  /** The batch update, in event order. */
  function ApplyBatch(files: map<Path, Entry>, crc: Hasher, m: map<Path, FileMetadata>, cs: seq<ConfigFileChange>)
    : map<Path, FileMetadata>
    decreases |cs|
  {
    if cs == [] then m
    else ApplyChange(files, crc, ApplyBatch(files, crc, m, cs[..|cs| - 1]), cs[|cs| - 1])
  }

  function ChangedPaths(cs: seq<ConfigFileChange>): set<Path> {
    set c | c in cs :: c.filePath
  }

  /** The batch update's effect on one path that has an event. */
  ghost predicate EventApplied(files: map<Path, Entry>, crc: Hasher, m: map<Path, FileMetadata>, c: ConfigFileChange) {
    if c.changeType == Deleted then c.filePath !in m
    else QuickProbe(files, crc, c.filePath).Ok? ==>
      c.filePath in m && m[c.filePath] == QuickProbe(files, crc, c.filePath).value
  }

  /** One batch entry touches only its own path. */
  lemma ApplyChangeIsLocal(files: map<Path, Entry>, crc: Hasher, m: map<Path, FileMetadata>, c: ConfigFileChange)
    ensures ApplyChange(files, crc, m, c) - {c.filePath} == m - {c.filePath}
  {
  }

  /**
   * With at most one event per path, the batch update removes deleted
   * files, stores a fresh quick fingerprint for created and modified ones,
   * and leaves every other entry as it was.
   */
  lemma {:induction false} ApplyBatchEffect(files: map<Path, Entry>, crc: Hasher, m: map<Path, FileMetadata>, cs: seq<ConfigFileChange>)
    requires forall i, j :: 0 <= i < j < |cs| ==> cs[i].filePath != cs[j].filePath
    ensures ApplyBatch(files, crc, m, cs) - ChangedPaths(cs) == m - ChangedPaths(cs)
    ensures forall i :: 0 <= i < |cs| ==> EventApplied(files, crc, ApplyBatch(files, crc, m, cs), cs[i])
    decreases |cs|
  {
    if cs != [] {
      var init := cs[..|cs| - 1];
      var last := cs[|cs| - 1];
      ApplyBatchEffect(files, crc, m, init);
      var before := ApplyBatch(files, crc, m, init);
      var after := ApplyBatch(files, crc, m, cs);
      assert after == ApplyChange(files, crc, before, last);
      assert ChangedPaths(cs) == ChangedPaths(init) + {last.filePath} by {
        assert cs == init + [last];
      }
      forall i | 0 <= i < |cs|
        ensures EventApplied(files, crc, after, cs[i])
      {
        if i < |cs| - 1 {
          assert cs[i] == init[i];
          assert EventApplied(files, crc, before, init[i]);
          assert cs[i].filePath != last.filePath;
        }
      }
      ApplyChangeIsLocal(files, crc, before, last);
      AgreeOutsideWider(after, before, {last.filePath}, ChangedPaths(cs));
      AgreeOutsideWider(before, m, ChangedPaths(init), ChangedPaths(cs));
    }
  }

  /** `perform_scan` works on the cache in place: the events so far and the cache. */
  datatype InPlace = InPlace(changes: seq<ConfigFileChange>, cache: map<Path, FileMetadata>)

  /** One file of `perform_scan`: full probe, strict comparison, cache updated at once; probe errors are skipped. */
  function InPlaceStep(files: map<Path, Entry>, crc: Hasher, m: map<Path, FileMetadata>, p: Path): InPlace {
    if p !in files then
      if p in m then InPlace([ConfigFileChange(p, Deleted)], m - {p}) else InPlace([], m)
    else
      match Fingerprint(files, crc, p)
      case Err(_) => InPlace([], m)
      case Ok(current) =>
        if p !in m then InPlace([ConfigFileChange(p, Created)], m[p := current])
        else if ChangedStrict(m[p], current) then InPlace([ConfigFileChange(p, Modified)], m[p := current])
        else InPlace([], m)
  }

  /** `perform_scan` over a watch list. */
  function InPlaceScan(files: map<Path, Entry>, crc: Hasher, m: map<Path, FileMetadata>, ps: seq<Path>): InPlace
    decreases |ps|
  {
    if ps == [] then InPlace([], m)
    else
      var before := InPlaceScan(files, crc, m, ps[..|ps| - 1]);
      var step := InPlaceStep(files, crc, before.cache, ps[|ps| - 1]);
      InPlace(before.changes + step.changes, step.cache)
  }

  /** Against the same cache, every event of the in-place scan is also an event of the quick scan. */
  lemma InPlaceEventsAreQuickEvents(files: map<Path, Entry>, crc: Hasher, m: map<Path, FileMetadata>, p: Path)
    ensures ScanSingleFile(files, crc, m, p).Ok?
    ensures forall c | c in InPlaceStep(files, crc, m, p).changes :: c in ScanSingleFile(files, crc, m, p).value
  {
  }

  /**
   * The forced-scan example: a watched file whose fingerprint was just
   * taken by the initialisation shows no change; rewritten later with
   * content of another length it shows exactly one Modified event. Without
   * the initialisation the first scan reports it as Created.
   */
  lemma ForcedScanExample(crc: Hasher, p: Path, t0: nat, t1: nat, c0: string, c1: string)
    requires t0 < t1 && |c0| != |c1|
    ensures var before := map[p := Entry(true, true, c0, |c0|, t0)];
      var cache := InitialMetadata(before, crc, map[], [p]);
      && InPlaceScan(before, crc, map[], [p]).changes == [ConfigFileChange(p, Created)]
      && InPlaceScan(before, crc, cache, [p]).changes == []
      && InPlaceScan(map[p := Entry(true, true, c1, |c1|, t1)], crc, cache, [p]).changes
           == [ConfigFileChange(p, Modified)]
  {
    var before := map[p := Entry(true, true, c0, |c0|, t0)];
    assert [p][..0] == [];
    assert InPlaceScan(before, crc, map[], [p]) == InPlaceStep(before, crc, map[], p);
    assert InitialMetadata(before, crc, map[], [p][..0]) == map[];
    assert Fingerprint(before, crc, p).Ok?;
    var cache := InitialMetadata(before, crc, map[], [p]);
    assert cache == map[p := Fingerprint(before, crc, p).value];
    assert InPlaceScan(before, crc, cache, [p]) == InPlaceStep(before, crc, cache, p);
    var after := map[p := Entry(true, true, c1, |c1|, t1)];
    assert InPlaceScan(after, crc, cache, [p]) == InPlaceStep(after, crc, cache, p);
  }

  /** `initialize_file_metadata`: a full fingerprint for every watched file that can be read. */
  function InitialMetadata(files: map<Path, Entry>, crc: Hasher, m: map<Path, FileMetadata>, ps: seq<Path>)
    : map<Path, FileMetadata>
    decreases |ps|
  {
    if ps == [] then m
    else
      var before := InitialMetadata(files, crc, m, ps[..|ps| - 1]);
      var p := ps[|ps| - 1];
      if p in files && Fingerprint(files, crc, p).Ok? then before[p := Fingerprint(files, crc, p).value] else before
  }

  /** After initialisation every readable watched file is cached with its full fingerprint. */
  lemma {:induction false} InitialMetadataCovers(files: map<Path, Entry>, crc: Hasher, m: map<Path, FileMetadata>, ps: seq<Path>)
    ensures forall i :: 0 <= i < |ps| && Readable(files, ps[i]) ==>
      ps[i] in InitialMetadata(files, crc, m, ps)
      && InitialMetadata(files, crc, m, ps)[ps[i]] == Fingerprint(files, crc, ps[i]).value
    ensures forall p | p in InitialMetadata(files, crc, m, ps) :: p in m || p in ps
    decreases |ps|
  {
    if ps != [] {
      var init := ps[..|ps| - 1];
      InitialMetadataCovers(files, crc, m, init);
      forall i | 0 <= i < |ps| - 1 && Readable(files, ps[i])
        ensures ps[i] in InitialMetadata(files, crc, m, ps)
        ensures InitialMetadata(files, crc, m, ps)[ps[i]] == Fingerprint(files, crc, ps[i]).value
      {
        assert ps[i] == init[i];
      }
      forall p | p in InitialMetadata(files, crc, m, ps)
        ensures p in m || p in ps
      {
        if p != ps[|ps| - 1] {
          assert p in InitialMetadata(files, crc, m, init);
          if p in init {
            var k :| 0 <= k < |init| && init[k] == p;
            assert ps[k] == p;
          }
        }
      }
    }
  }

  // ---------------------------------------------------------------------
  // The watch list
  // ---------------------------------------------------------------------

  /** A path `add_file_to_monitor` accepts: an existing regular file of at most 10 MiB. */
  predicate Watchable(files: map<Path, Entry>, p: Path) {
    p in files && files[p].isFile && files[p].size <= MaxWatchedFileSize
  }

  /** The watch list after `add_file_to_monitor`. */
  function AfterAdd(files: map<Path, Entry>, ms: seq<Path>, p: Path): seq<Path> {
    if !Watchable(files, p) || p in ms then ms
    else if |ms| + 1 > MaxMonitoredFiles then (ms + [p])[1..]
    else ms + [p]
  }

  /** The path `add_file_to_monitor` drops from the front of the list, if any. */
  function EvictedBy(files: map<Path, Entry>, ms: seq<Path>, p: Path): Option<Path>
    requires |ms| <= MaxMonitoredFiles
  {
    if Watchable(files, p) && p !in ms && |ms| == MaxMonitoredFiles then Some(ms[0]) else None
  }

  /**
   * The watch list stays free of duplicates and at most 50 long; the new
   * path is in it iff it was already or is watchable; when a path is
   * evicted it is the oldest one and the rest keep their order.
   */
  lemma AfterAddKeepsBounds(files: map<Path, Entry>, ms: seq<Path>, p: Path)
    requires |ms| <= MaxMonitoredFiles && NoDuplicates(ms)
    ensures var r := AfterAdd(files, ms, p);
      && |r| <= MaxMonitoredFiles && NoDuplicates(r)
      && (p in r <==> p in ms || Watchable(files, p))
      && (EvictedBy(files, ms, p).Some? ==> r == ms[1..] + [p])
      && (EvictedBy(files, ms, p).None? ==> r == ms || r == ms + [p])
      && (!Watchable(files, p) ==> r == ms)
  {
    var r := AfterAdd(files, ms, p);
    if Watchable(files, p) && p !in ms && |ms| == MaxMonitoredFiles {
      assert r == ms[1..] + [p];
    }
  }

  /** A path that does not exist is never added, whatever the list holds. */
  lemma MissingPathIsNotAdded(files: map<Path, Entry>, ms: seq<Path>, p: Path)
    requires p !in files
    ensures AfterAdd(files, ms, p) == ms
  {
  }

  /** `optimize_metadata_cache`: above 100 entries, only the watched paths are kept. */
  function OptimizedCache(m: map<Path, FileMetadata>, ms: seq<Path>): (r: map<Path, FileMetadata>)
    ensures |m| <= MaxCacheSize ==> r == m
    ensures |m| > MaxCacheSize ==> r.Keys == m.Keys * (set p | p in ms) && forall p | p in r :: r[p] == m[p]
  {
    if |m| > MaxCacheSize then map p | p in m && p in ms :: m[p] else m
  }

  // ---------------------------------------------------------------------
  // The polling loop
  // ---------------------------------------------------------------------

  /** The polling task's own state: its error streak and the shared running flag. */
  datatype LoopState = LoopState(consecutiveErrors: nat, running: bool)

  /** What one tick of the loop does. */
  datatype Tick =
    | Stopped                                  // the flag was cleared: the loop ends
    | Quiet                                    // a scan with no changes
    | Reported(changes: seq<ConfigFileChange>) // the callback gets the changes
    | BackedOff(seconds: nat)                  // a failed scan, then a pause
    | GaveUp                                   // too many failures: the flag is cleared and the loop ends

  datatype Step = Step(state: LoopState, tick: Tick)

  /** `min(300, 30 * n)` seconds. */
  function BackoffSeconds(errors: nat): nat {
    if BackoffStepSeconds * errors < BackoffCapSeconds then BackoffStepSeconds * errors else BackoffCapSeconds
  }

  /** One tick of the loop in `start_monitoring`, given the outcome of the scan. */
  function PollStep(st: LoopState, scan: Result<seq<ConfigFileChange>>): Step {
    if !st.running then Step(st, Stopped)
    else match scan
      case Ok(cs) => Step(LoopState(0, true), if cs == [] then Quiet else Reported(cs))
      case Err(_) =>
        var n := st.consecutiveErrors + 1;
        if n >= MaxScanErrors then Step(LoopState(n, false), GaveUp)
        else Step(LoopState(n, true), BackedOff(BackoffSeconds(n)))
  }

  /** The loop over a sequence of scan outcomes, until it stops. */
  function Run(st: LoopState, scans: seq<Result<seq<ConfigFileChange>>>): (LoopState, seq<Tick>)
    decreases |scans|
  {
    if scans == [] then (st, [])
    else
      var step := PollStep(st, scans[0]);
      if step.tick == Stopped || step.tick == GaveUp then (step.state, [step.tick])
      else
        var rest := Run(step.state, scans[1..]);
        (rest.0, [step.tick] + rest.1)
  }

  /** `k` failed scans in a row. */
  function Failures(k: nat): seq<Result<seq<ConfigFileChange>>> {
    seq(k, i => Err(MonitorError("scan failed")))
  }

  /**
   * From an error streak of `e`, failed scans pause 30, 60, ... seconds and
   * the tenth failure in a row clears the running flag and ends the loop.
   */
  lemma {:induction false} FailuresBackOffThenGiveUp(e: nat, k: nat)
    requires e < MaxScanErrors && e + k <= MaxScanErrors
    ensures var (st, ticks) := Run(LoopState(e, true), Failures(k));
      && st == LoopState(e + k, e + k < MaxScanErrors)
      && |ticks| == k
      && (forall i :: 0 <= i < k && e + i + 1 < MaxScanErrors ==> ticks[i] == BackedOff(BackoffStepSeconds * (e + i + 1)))
      && (e + k == MaxScanErrors && k > 0 ==> ticks[k - 1] == GaveUp)
    decreases k
  {
    if k == 0 {
      assert Failures(k) == [];
    } else {
      assert Failures(k)[1..] == Failures(k - 1);
      assert Failures(k)[0].Err?;
      var step := PollStep(LoopState(e, true), Failures(k)[0]);
      if e + 1 >= MaxScanErrors {
        assert step == Step(LoopState(e + 1, false), GaveUp);
        assert Run(LoopState(e, true), Failures(k)) == (step.state, [step.tick]);
      } else {
        FailuresBackOffThenGiveUp(e + 1, k - 1);
        var rest := Run(LoopState(e + 1, true), Failures(k - 1));
        assert Run(LoopState(e, true), Failures(k)) == (rest.0, [step.tick] + rest.1);
        forall i | 0 <= i < k && e + i + 1 < MaxScanErrors
          ensures Run(LoopState(e, true), Failures(k)).1[i] == BackedOff(BackoffStepSeconds * (e + i + 1))
        {
          if i > 0 {
            assert Run(LoopState(e, true), Failures(k)).1[i] == rest.1[i - 1];
          }
        }
      }
    }
  }

  /** No pause is ever longer than 270 seconds: the 300-second cap is never reached. */
  lemma BackoffNeverReachesCap(e: nat, k: nat)
    requires e < MaxScanErrors && e + k <= MaxScanErrors
    ensures forall t | t in Run(LoopState(e, true), Failures(k)).1 && t.BackedOff? :: t.seconds <= 270
  {
    FailuresBackOffThenGiveUp(e, k);
    var ticks := Run(LoopState(e, true), Failures(k)).1;
    forall t | t in ticks && t.BackedOff?
      ensures t.seconds <= 270
    {
      var i :| 0 <= i < |ticks| && ticks[i] == t;
    }
  }

  /** Scans that always succeed keep the streak at 0 and the loop running: the error path is never taken. */
  lemma {:induction false} SuccessfulScansNeverBackOff(e: nat, scans: seq<Result<seq<ConfigFileChange>>>)
    requires forall i :: 0 <= i < |scans| ==> scans[i].Ok?
    ensures var (st, ticks) := Run(LoopState(e, true), scans);
      && st.running && (scans != [] ==> st.consecutiveErrors == 0)
      && |ticks| == |scans|
      && forall t | t in ticks :: t.Quiet? || t.Reported?
    decreases |scans|
  {
    if scans != [] {
      SuccessfulScansNeverBackOff(0, scans[1..]);
      var step := PollStep(LoopState(e, true), scans[0]);
      var rest := Run(step.state, scans[1..]);
      assert Run(LoopState(e, true), scans) == (rest.0, [step.tick] + rest.1);
    }
  }

  // ---------------------------------------------------------------------
  // The service
  // ---------------------------------------------------------------------

  /** `set_monitor_interval` accepts 1 to 60 minutes. */
  predicate IntervalInRange(minutes: int) {
    1 <= minutes <= 60
  }

  function IntervalMessage(minutes: u64): string {
    "Invalid monitor interval: " + NatToString(minutes) + " minutes. Must be between 1 and 60."
  }

  class MonitorService {
    var monitoredFiles: seq<Path>
    var fileMetadata: map<Path, FileMetadata>
    var intervalMinutes: u64
    var isRunning: bool
    var scanErrorCount: nat
    /** The copy of the watch list the polling task took when monitoring started. */
    var loopFiles: seq<Path>
    const disk: Disk
    const crc: Hasher

    /** The watch list is at most 50 long and has no duplicates. */
    ghost predicate Valid()
      reads this
    {
      |monitoredFiles| <= MaxMonitoredFiles && NoDuplicates(monitoredFiles)
    }

    /** `MonitorService::new`. */
    constructor (intervalMinutes: u64, disk: Disk, crc: Hasher)
      ensures Valid()
      ensures monitoredFiles == [] && fileMetadata == map[] && this.intervalMinutes == intervalMinutes
      ensures !isRunning && scanErrorCount == 0 && loopFiles == [] && this.disk == disk && this.crc == crc
    {
      monitoredFiles := [];
      fileMetadata := map[];
      this.intervalMinutes := intervalMinutes;
      isRunning := false;
      scanErrorCount := 0;
      loopFiles := [];
      this.disk := disk;
      this.crc := crc;
    }

    /** `add_file_to_monitor`. */
    method AddFileToMonitor(p: Path)
      requires Valid()
      modifies this`monitoredFiles, this`fileMetadata
      ensures Valid()
      ensures monitoredFiles == AfterAdd(disk.files, old(monitoredFiles), p)
      ensures EvictedBy(disk.files, old(monitoredFiles), p).None? ==> fileMetadata == old(fileMetadata)
      ensures EvictedBy(disk.files, old(monitoredFiles), p).Some? ==>
        fileMetadata == old(fileMetadata) - {EvictedBy(disk.files, old(monitoredFiles), p).value}
    {
      AfterAddKeepsBounds(disk.files, monitoredFiles, p);
      if !disk.Exists(p) {
        return;
      }
      if !disk.files[p].isFile {
        return;
      }
      if disk.files[p].size > MaxWatchedFileSize {
        return;
      }
      if p !in monitoredFiles {
        monitoredFiles := monitoredFiles + [p];
        if |monitoredFiles| > MaxMonitoredFiles {
          var removed := monitoredFiles[0];
          monitoredFiles := monitoredFiles[1..];
          fileMetadata := fileMetadata - {removed};
        }
      }
    }

    /** `optimize_metadata_cache`. */
    method OptimizeMetadataCache()
      modifies this`fileMetadata
      ensures fileMetadata == OptimizedCache(old(fileMetadata), monitoredFiles)
    {
      if |fileMetadata| > MaxCacheSize {
        fileMetadata := map p | p in fileMetadata && p in monitoredFiles :: fileMetadata[p];
      }
    }

    /** `stop_monitoring`: clears the running flag, then trims the cache. */
    method StopMonitoring()
      modifies this`isRunning, this`fileMetadata
      ensures !isRunning
      ensures fileMetadata == OptimizedCache(old(fileMetadata), monitoredFiles)
    {
      isRunning := false;
      OptimizeMetadataCache();
    }

    /** `set_monitor_interval`: a new value while running stops the monitor (`restart_monitoring`). */
    method SetMonitorInterval(minutes: u64) returns (r: Result<()>)
      modifies this`intervalMinutes, this`isRunning, this`fileMetadata
      ensures r.Ok? <==> IntervalInRange(minutes)
      ensures r.Err? ==>
        (r == Err(MonitorError(IntervalMessage(minutes))) && intervalMinutes == old(intervalMinutes)
         && isRunning == old(isRunning) && fileMetadata == old(fileMetadata))
      ensures r.Ok? ==> intervalMinutes == minutes
      ensures r.Ok? && minutes != old(intervalMinutes) && old(isRunning) ==>
        !isRunning && fileMetadata == OptimizedCache(old(fileMetadata), monitoredFiles)
      ensures r.Ok? && (minutes == old(intervalMinutes) || !old(isRunning)) ==>
        isRunning == old(isRunning) && fileMetadata == old(fileMetadata)
    {
      if !IntervalInRange(minutes as int) {
        return Err(MonitorError(IntervalMessage(minutes)));
      }
      var previous := intervalMinutes;
      intervalMinutes := minutes;
      if previous != minutes && isRunning {
        StopMonitoring();
      }
      r := Ok(());
    }

    /** `initialize_file_metadata`. */
    method InitializeFileMetadata() returns (r: Result<()>)
      modifies this`fileMetadata
      ensures r.Ok?
      ensures fileMetadata == InitialMetadata(disk.files, crc, old(fileMetadata), monitoredFiles)
    {
      var i := 0;
      while i < |monitoredFiles|
        invariant 0 <= i <= |monitoredFiles|
        invariant fileMetadata == InitialMetadata(disk.files, crc, old(fileMetadata), monitoredFiles[..i])
      {
        assert monitoredFiles[..i + 1][..i] == monitoredFiles[..i];
        var p := monitoredFiles[i];
        if disk.Exists(p) {
          var md := Fingerprint(disk.files, crc, p);
          if md.Ok? {
            fileMetadata := fileMetadata[p := md.value];
          }
        }
        i := i + 1;
      }
      assert monitoredFiles[..i] == monitoredFiles;
      r := Ok(());
    }

    /**
     * The synchronous part of `start_monitoring`: the polling task takes its
     * own copy of the watch list, the cache is primed, the error count reset
     * and the running flag set. The timer task itself is modelled by
     * `PollStep`; later changes to the watch list do not reach its copy.
     */
    method StartMonitoring() returns (r: Result<()>)
      modifies this`loopFiles, this`fileMetadata, this`scanErrorCount, this`isRunning
      ensures r.Ok? && isRunning && scanErrorCount == 0
      ensures loopFiles == monitoredFiles
      ensures fileMetadata == InitialMetadata(disk.files, crc, old(fileMetadata), monitoredFiles)
    {
      loopFiles := monitoredFiles;
      var primed := InitializeFileMetadata();
      scanErrorCount := 0;
      isRunning := true;
      r := Ok(());
    }

    /**
     * `perform_scan_optimized` as the polling task calls it: the task's copy
     * of the watch list is scanned against a snapshot of the cache, then the
     * batch update is applied. It always succeeds. A path added after the
     * start is not scanned; a path evicted since the start, whose cache entry
     * was dropped, is reported as Created again and cached anew.
     */
    method PerformScanOptimized() returns (r: Result<seq<ConfigFileChange>>)
      modifies this`fileMetadata
      ensures r.Ok? && r.value == ScanChanges(disk.files, crc, old(fileMetadata), loopFiles)
      ensures fileMetadata == ApplyBatch(disk.files, crc, old(fileMetadata), r.value)
    {
      var snapshot := fileMetadata;
      var changes: seq<ConfigFileChange> := [];
      var i := 0;
      while i < |loopFiles|
        invariant 0 <= i <= |loopFiles| && fileMetadata == snapshot
        invariant changes == ScanChanges(disk.files, crc, snapshot, loopFiles[..i])
      {
        assert loopFiles[..i + 1][..i] == loopFiles[..i];
        var found := ScanSingleFile(disk.files, crc, snapshot, loopFiles[i]);
        if found.Ok? {
          changes := changes + found.value;
        }
        i := i + 1;
      }
      assert loopFiles[..i] == loopFiles;
      var j := 0;
      while j < |changes|
        invariant 0 <= j <= |changes|
        invariant fileMetadata == ApplyBatch(disk.files, crc, snapshot, changes[..j])
      {
        assert changes[..j + 1][..j] == changes[..j];
        var c := changes[j];
        if c.changeType == Deleted {
          fileMetadata := fileMetadata - {c.filePath};
        } else {
          var md := QuickProbe(disk.files, crc, c.filePath);
          if md.Ok? {
            fileMetadata := fileMetadata[c.filePath := md.value];
          }
        }
        j := j + 1;
      }
      assert changes[..j] == changes;
      r := Ok(changes);
    }

    /** `perform_scan` (and `force_scan`): the strict rule, the cache updated file by file. */
    method PerformScan() returns (r: Result<seq<ConfigFileChange>>)
      modifies this`fileMetadata
      ensures r.Ok? && r.value == InPlaceScan(disk.files, crc, old(fileMetadata), monitoredFiles).changes
      ensures fileMetadata == InPlaceScan(disk.files, crc, old(fileMetadata), monitoredFiles).cache
    {
      var changes: seq<ConfigFileChange> := [];
      var i := 0;
      while i < |monitoredFiles|
        invariant 0 <= i <= |monitoredFiles|
        invariant InPlace(changes, fileMetadata) == InPlaceScan(disk.files, crc, old(fileMetadata), monitoredFiles[..i])
      {
        assert monitoredFiles[..i + 1][..i] == monitoredFiles[..i];
        var p := monitoredFiles[i];
        if !disk.Exists(p) {
          if p in fileMetadata {
            changes := changes + [ConfigFileChange(p, Deleted)];
            fileMetadata := fileMetadata - {p};
          }
        } else {
          var current := Fingerprint(disk.files, crc, p);
          if current.Ok? {
            var wasModified := true;
            if p in fileMetadata {
              wasModified := ChangedStrict(fileMetadata[p], current.value);
            } else {
              changes := changes + [ConfigFileChange(p, Created)];
            }
            if wasModified {
              if p in fileMetadata {
                changes := changes + [ConfigFileChange(p, Modified)];
              }
              fileMetadata := fileMetadata[p := current.value];
            }
          }
        }
        i := i + 1;
      }
      assert monitoredFiles[..i] == monitoredFiles;
      r := Ok(changes);
    }

    /** `get_monitoring_stats`. */
    method GetMonitoringStats() returns (s: MonitoringStats)
      ensures s.monitoredFilesCount == |monitoredFiles| && s.cachedMetadataCount == |fileMetadata|
      ensures s.currentErrorCount == scanErrorCount && s.isRunning == isRunning
      ensures s.intervalMinutes == intervalMinutes as nat
      ensures s.cacheSizeLimit == MaxCacheSize && s.maxScanErrors == MaxScanErrors
    {
      s := MonitoringStats(|monitoredFiles|, |fileMetadata|, scanErrorCount, isRunning,
        intervalMinutes as nat, MaxCacheSize, MaxScanErrors);
    }

    /** `clear_cache`. */
    method ClearCache()
      modifies this`fileMetadata, this`scanErrorCount
      ensures fileMetadata == map[] && scanErrorCount == 0
    {
      fileMetadata := map[];
      scanErrorCount := 0;
    }

    /** `clear_monitored_files`. */
    method ClearMonitoredFiles()
      modifies this`monitoredFiles, this`fileMetadata
      ensures Valid()
      ensures monitoredFiles == [] && fileMetadata == map[]
    {
      monitoredFiles := [];
      fileMetadata := map[];
    }

    /**
     * One tick of the running loop. `streak` is the loop task's own count of
     * consecutive failures, which `ClearCache` and `StartMonitoring` do not
     * reset; the shared error count only mirrors it. A stopped loop leaves
     * the shared state alone.
     */
    method Tick(streak: nat, scan: Result<seq<ConfigFileChange>>) returns (tick: Tick, next: nat)
      modifies this`scanErrorCount, this`isRunning
      ensures var step := PollStep(LoopState(streak, old(isRunning)), scan);
        && tick == step.tick && next == step.state.consecutiveErrors
        && isRunning == step.state.running
        && scanErrorCount == if old(isRunning) then next else old(scanErrorCount)
    {
      var step := PollStep(LoopState(streak, isRunning), scan);
      tick := step.tick;
      next := step.state.consecutiveErrors;
      if isRunning {
        isRunning := step.state.running;
        scanErrorCount := next;
      }
    }
  }
}
