/**
 * The backup rotation rule of `cleanup_old_backups`: order the backup files
 * newest first by modification time and remove every one after the fifth.
 */
module BackupRotation {
  import opened Types

  /** How many of the newest backups are kept. */
  const KeptBackups: nat := 5

  /** A backup file as the rotation sees it: its name and modification time. */
  datatype BackupFile = BackupFile(name: string, mtime: nat)

  predicate NewestFirst(bs: seq<BackupFile>) {
    forall i, j :: 0 <= i < j < |bs| ==> bs[i].mtime >= bs[j].mtime
  }

  /** Places `b` before the first element that is not newer than it. */
  function Insert(b: BackupFile, bs: seq<BackupFile>): (r: seq<BackupFile>)
    ensures |r| == |bs| + 1
    ensures multiset(r) == multiset(bs) + multiset{b}
    decreases |bs|
  {
    if bs == [] || bs[0].mtime <= b.mtime then [b] + bs
    else
      assert bs == [bs[0]] + bs[1..];
      [bs[0]] + Insert(b, bs[1..])
  }

  lemma {:induction false} InsertKeepsOrder(b: BackupFile, bs: seq<BackupFile>)
    requires NewestFirst(bs)
    ensures NewestFirst(Insert(b, bs))
    ensures Insert(b, bs) != [] && (Insert(b, bs)[0] == b || (bs != [] && Insert(b, bs)[0] == bs[0]))
    decreases |bs|
  {
    if bs == [] || bs[0].mtime <= b.mtime {
    } else {
      InsertKeepsOrder(b, bs[1..]);
      var rest := Insert(b, bs[1..]);
      assert Insert(b, bs) == [bs[0]] + rest;
      forall j | 0 <= j < |rest|
        ensures bs[0].mtime >= rest[j].mtime
      {
        assert rest[j] in multiset(rest);
        if rest[j] != b {
          assert rest[j] in multiset(bs[1..]);
          var k :| 1 <= k < |bs| && bs[k] == rest[j];
        }
      }
    }
  }

  /** `sort_by` with newest first, as an insertion sort. */
  function SortNewestFirst(bs: seq<BackupFile>): (r: seq<BackupFile>)
    ensures |r| == |bs|
    ensures multiset(r) == multiset(bs)
    decreases |bs|
  {
    if bs == [] then []
    else
      assert bs == [bs[0]] + bs[1..];
      Insert(bs[0], SortNewestFirst(bs[1..]))
  }

  /** The sort orders newest first. */
  lemma {:induction false} SortNewestFirstOrders(bs: seq<BackupFile>)
    ensures NewestFirst(SortNewestFirst(bs))
    decreases |bs|
  {
    if bs != [] {
      SortNewestFirstOrders(bs[1..]);
      InsertKeepsOrder(bs[0], SortNewestFirst(bs[1..]));
    }
  }

  /** The backups `skip(5)` leaves for removal. */
  function RotationVictims(bs: seq<BackupFile>): (r: seq<BackupFile>)
    ensures |r| == if |bs| <= KeptBackups then 0 else |bs| - KeptBackups
  {
    var sorted := SortNewestFirst(bs);
    if |sorted| <= KeptBackups then [] else sorted[KeptBackups..]
  }

  /** The backups that survive the rotation. */
  function RotationSurvivors(bs: seq<BackupFile>): (r: seq<BackupFile>)
    ensures |r| == if |bs| <= KeptBackups then |bs| else KeptBackups
  {
    var sorted := SortNewestFirst(bs);
    if |sorted| <= KeptBackups then sorted else sorted[..KeptBackups]
  }

  /**
   * The rotation splits the backups into at most five survivors and the
   * rest, and no removed backup is newer than any survivor.
   */
  lemma RotationKeepsNewest(bs: seq<BackupFile>)
    ensures multiset(RotationSurvivors(bs)) + multiset(RotationVictims(bs)) == multiset(bs)
    ensures forall s, v :: s in RotationSurvivors(bs) && v in RotationVictims(bs) ==> s.mtime >= v.mtime
  {
    var sorted := SortNewestFirst(bs);
    SortNewestFirstOrders(bs);
    if |sorted| > KeptBackups {
      assert sorted == sorted[..KeptBackups] + sorted[KeptBackups..];
      forall s, v | s in sorted[..KeptBackups] && v in sorted[KeptBackups..]
        ensures s.mtime >= v.mtime
      {
        var i :| 0 <= i < KeptBackups && sorted[..KeptBackups][i] == s;
        var j :| 0 <= j < |sorted| - KeptBackups && sorted[KeptBackups..][j] == v;
        assert sorted[i] == s && sorted[KeptBackups + j] == v;
      }
    }
  }

  /** Five backups or fewer are all kept. */
  lemma FewBackupsAreKept(bs: seq<BackupFile>)
    requires |bs| <= KeptBackups
    ensures RotationVictims(bs) == []
    ensures multiset(RotationSurvivors(bs)) == multiset(bs)
  {
  }
}
