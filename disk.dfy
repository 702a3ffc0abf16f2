/**
 * The file system the services run against: a map from path to what is
 * stored there. Failures are part of the state: a `locked` path cannot be
 * created, replaced, renamed or deleted by this process, and a write to a
 * `torn` path stores only the first half of the data (a partial write).
 * Every mutation that succeeds is appended to a ghost log, so that the
 * order of writes can be stated.
 */
module Storage {
  import opened Types

  /** What is stored at one path. A directory has `isFile == false`. */
  datatype Entry = Entry(isFile: bool, readable: bool, content: string, size: nat, mtime: nat)

  /** A successful mutation of the file system. */
  datatype Op = Wrote(path: Path) | Copied(from: Path, to: Path) | Renamed(from: Path, to: Path) | Removed(path: Path)

  /** Does `op` replace or delete what is stored at `target`? */
  predicate Replaces(op: Op, target: Path) {
    match op
    case Wrote(p) => p == target
    case Copied(_, to) => to == target
    case Renamed(from, to) => from == target || to == target
    case Removed(p) => p == target
  }

  /**
   * In `ops`, nothing replaces `target` before a copy of `target` has been
   * taken: either no operation replaces it, or a copy from it comes first.
   */
  ghost predicate CopiedBeforeReplaced(ops: seq<Op>, target: Path)
    decreases |ops|
  {
    ops == []
    || (ops[0].Copied? && ops[0].from == target)
    || (!Replaces(ops[0], target) && CopiedBeforeReplaced(ops[1..], target))
  }

  /** A prefix that leaves `target` alone, then a copy of it, then anything. */
  lemma {:induction false} CopiedBeforeReplacedAfter(pre: seq<Op>, copy: Op, rest: seq<Op>, target: Path)
    requires forall i :: 0 <= i < |pre| ==> !Replaces(pre[i], target)
    requires copy.Copied? && copy.from == target
    ensures CopiedBeforeReplaced(pre + [copy] + rest, target)
  {
    if pre != [] {
      CopiedBeforeReplacedAfter(pre[1..], copy, rest, target);
      assert (pre + [copy] + rest)[1..] == pre[1..] + [copy] + rest;
    } else {
      assert (pre + [copy] + rest)[0] == copy;
    }
  }

  /** A sequence none of whose operations replaces `target`. */
  lemma {:induction false} UntouchedIsCopiedBeforeReplaced(ops: seq<Op>, target: Path)
    requires forall i :: 0 <= i < |ops| ==> !Replaces(ops[i], target)
    ensures CopiedBeforeReplaced(ops, target)
    decreases |ops|
  {
    if ops != [] {
      UntouchedIsCopiedBeforeReplaced(ops[1..], target);
    }
  }

  /** `crc32fast::hash`, taken as given: any deterministic 32-bit hash of the text. */
  type Hasher = string -> u32

  /** `fs::read_to_string` succeeds on `p`. */
  predicate Readable(files: map<Path, Entry>, p: Path) {
    p in files && files[p].isFile && files[p].readable
  }

  /** The text stored at `p`, when it can be read. */
  function TextAt(files: map<Path, Entry>, p: Path): Option<string> {
    if Readable(files, p) then Some(files[p].content) else None
  }

  /** What is stored at `p`, if anything. */
  function EntryAt(files: map<Path, Entry>, p: Path): Option<Entry> {
    if p in files then Some(files[p]) else None
  }

  /**
   * `get_file_metadata`: modification time, checksum of the whole content
   * and size; fails when the path is missing or its content cannot be read.
   */
  function Fingerprint(files: map<Path, Entry>, crc: Hasher, p: Path): (r: Result<FileMetadata>)
    ensures r.Ok? <==> Readable(files, p)
    ensures r.Ok? ==> r.value == FileMetadata(files[p].mtime, crc(files[p].content), files[p].size)
  {
    if p !in files then Err(FileSystemError("Failed to get file metadata"))
    else if !(files[p].isFile && files[p].readable) then Err(FileSystemError("Failed to read file"))
    else Ok(FileMetadata(files[p].mtime, crc(files[p].content), files[p].size))
  }

  /** What a write of `data` to `p` leaves on disk. */
  function Stored(torn: set<Path>, p: Path, data: string): (s: string)
    ensures p !in torn ==> s == data
    ensures p in torn ==> |s| == |data| / 2 && s == data[..|s|]
  {
    if p in torn then data[..|data| / 2] else data
  }

  /** Maps that agree outside a set agree outside any larger set. */
  lemma AgreeOutsideWider<V>(a: map<Path, V>, b: map<Path, V>, small: set<Path>, large: set<Path>)
    requires a - small == b - small && small <= large
    ensures a - large == b - large
  {
    forall p | p in a - large
      ensures p in b - large && (a - large)[p] == (b - large)[p]
    {
      assert p in a - small;
    }
    forall p | p in b - large
      ensures p in a - large
    {
      assert p in b - small;
    }
  }

  class Disk {
    var files: map<Path, Entry>
    var locked: set<Path>
    var torn: set<Path>
    ghost var log: seq<Op>

    constructor (files: map<Path, Entry>, locked: set<Path>, torn: set<Path>)
      ensures this.files == files && this.locked == locked && this.torn == torn && log == []
    {
      this.files := files;
      this.locked := locked;
      this.torn := torn;
      log := [];
    }

    /** `Path::exists`. */
    predicate Exists(p: Path)
      reads this
    {
      p in files
    }

    /** Can `p` be created or replaced by a file? */
    predicate Writable(p: Path)
      reads this
    {
      p !in locked && (p in files ==> files[p].isFile)
    }

    /** `fs::read_to_string`. */
    method Read(p: Path) returns (r: Result<string>)
      ensures r.Ok? <==> Readable(files, p)
      ensures r.Ok? ==> r.value == files[p].content
    {
      if Readable(files, p) {
        r := Ok(files[p].content);
      } else {
        r := Err(IoError("cannot read file"));
      }
    }

    /** `fs::write`: creates or truncates `p` and stores `data` at time `now`. */
    method Write(p: Path, data: string, now: nat) returns (ok: bool)
      modifies this`files, this`log
      ensures ok == old(Writable(p))
      ensures ok ==> files == old(files)[p := Entry(true, true, Stored(torn, p, data), |Stored(torn, p, data)|, now)]
      ensures ok ==> log == old(log) + [Wrote(p)]
      ensures !ok ==> files == old(files) && log == old(log)
    {
      ok := Writable(p);
      if ok {
        var s := Stored(torn, p, data);
        files := files[p := Entry(true, true, s, |s|, now)];
        log := log + [Wrote(p)];
      }
    }

    /** `fs::copy`: all or nothing; the copy is a new file written at `now`. */
    method Copy(from: Path, to: Path, now: nat) returns (ok: bool)
      modifies this`files, this`log
      ensures ok == old(from in files && files[from].isFile && files[from].readable && Writable(to))
      ensures ok ==> files == old(files)[to := Entry(true, true, old(files[from].content), |old(files[from].content)|, now)]
      ensures ok ==> log == old(log) + [Copied(from, to)]
      ensures !ok ==> files == old(files) && log == old(log)
    {
      ok := from in files && files[from].isFile && files[from].readable && Writable(to);
      if ok {
        var c := files[from].content;
        files := files[to := Entry(true, true, c, |c|, now)];
        log := log + [Copied(from, to)];
      }
    }

    /** `fs::rename`: moves the entry at `from` over `to`. */
    method Rename(from: Path, to: Path) returns (ok: bool)
      modifies this`files, this`log
      ensures ok == old(from in files && from !in locked && Writable(to))
      ensures ok ==> files == (old(files) - {from})[to := old(files[from])]
      ensures ok ==> log == old(log) + [Renamed(from, to)]
      ensures !ok ==> files == old(files) && log == old(log)
    {
      ok := from in files && from !in locked && Writable(to);
      if ok {
        var e := files[from];
        files := (files - {from})[to := e];
        log := log + [Renamed(from, to)];
      }
    }

    /** `fs::remove_file`. */
    method Remove(p: Path) returns (ok: bool)
      modifies this`files, this`log
      ensures ok == old(p in files && files[p].isFile && p !in locked)
      ensures ok ==> files == old(files) - {p}
      ensures ok ==> log == old(log) + [Removed(p)]
      ensures !ok ==> files == old(files) && log == old(log)
    {
      ok := p in files && files[p].isFile && p !in locked;
      if ok {
        files := files - {p};
        log := log + [Removed(p)];
      }
    }
  }
}
