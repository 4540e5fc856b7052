/**
 * The file cache engine: a directory holding, for every cache key, the files
 * `<dir>/<b64>.code` (the egg), `<dir>/<b64>.deps` (the dependency manifest
 * as JSON) and `<dir>/<b64>.lock` (the lock file), where `<b64>` is the key
 * in the URL and filename safe base 64 of section 5 of RFC 4648.
 *
 * The directory is a `Disk` value: the contents of the code files, the
 * parsed contents of the deps files and the set of lock files present, each
 * keyed by full path. The modification times of the dependencies are a map
 * from path to time handed to each lookup; a path missing from it is a file
 * that does not exist.
 */
module Filecache {
  import opened Py
  import opened Strs
  import opened Base64Url
  import opened SeedEntry

  /** `int(x)` of a float: truncation toward zero. */
  function Trunc(x: real): (r: int)
    ensures x >= 0.0 ==> 0 <= r && r as real <= x < r as real + 1.0
    ensures x < 0.0 ==> r <= 0 && r as real - 1.0 < x <= r as real
  {
    if x >= 0.0 then x.Floor else -((-x).Floor)
  }

  /** What `json.loads` makes of a deps file. */
  datatype DepsDoc =
    | Manifest(mtimes: map<string, MTime>)   // a JSON object: path -> mtime
    | NotAnObject                             // valid JSON of another kind, e.g. `null` for deps None
    | Unparsable                              // not JSON at all

  /** The cache directory's files, by full path. */
  datatype Disk = Disk(code: map<string, string>, deps: map<string, DepsDoc>, locks: set<string>)

  const EmptyDisk := Disk(map[], map[], {})

  // ---------------------------------------------------------------- paths

  /** `"%s/%s.%s" % (cacheDir, key, suffix)`: a name in the directory, from which stem and suffix read back. */
  function GeneratePath(dir: string, stem: string, suffix: string): (r: string)
    ensures |r| == |dir| + |stem| + |suffix| + 2
    ensures StartsWith(r, dir + "/") && EndsWith(r, "." + suffix)
    ensures r[|dir| + 1..|r| - |suffix| - 1] == stem
  {
    var r := dir + "/" + stem + "." + suffix;
    assert r == (dir + "/") + stem + ("." + suffix);
    r
  }

  /** `_sanitizeKeyForFileName`: a file-name stem (no '/', no '.') that decodes back to the key. */
  function Sanitize(key: ByteString): (r: string)
    ensures Decode(r) == Some(key)
    ensures '/' !in r && '.' !in r
  {
    DecodeEncode(key);
    EncodeIsFileStem(key);
    Encode(key)
  }

  /** The path of a key's code file: `dir/<stem>.code`, from which the key reads back. */
  function CodePath(dir: string, key: ByteString): (r: string)
    ensures StartsWith(r, dir + "/") && EndsWith(r, ".code")
    ensures |r| >= |dir| + 6 && Decode(r[|dir| + 1..|r| - 5]) == Some(key)
  {
    GeneratePath(dir, Sanitize(key), "code")
  }

  /** The path of a key's dependency manifest: `dir/<stem>.deps`, from which the key reads back. */
  function DepsPath(dir: string, key: ByteString): (r: string)
    ensures StartsWith(r, dir + "/") && EndsWith(r, ".deps")
    ensures |r| >= |dir| + 6 && Decode(r[|dir| + 1..|r| - 5]) == Some(key)
  {
    GeneratePath(dir, Sanitize(key), "deps")
  }

  /** The path of a key's lock file: `dir/<stem>.lock`, from which the key reads back. */
  function LockPath(dir: string, key: ByteString): (r: string)
    ensures StartsWith(r, dir + "/") && EndsWith(r, ".lock")
    ensures |r| >= |dir| + 6 && Decode(r[|dir| + 1..|r| - 5]) == Some(key)
  {
    GeneratePath(dir, Sanitize(key), "lock")
  }

  /** Two dot-free stems give the same path only if stem and suffix agree. */
  lemma PathInjective(dir: string, s1: string, x1: string, s2: string, x2: string)
    requires '.' !in s1 && '.' !in s2
    requires GeneratePath(dir, s1, x1) == GeneratePath(dir, s2, x2)
    ensures s1 == s2 && x1 == x2
  {
    var p := dir + "/";
    var t1, t2 := s1 + "." + x1, s2 + "." + x2;
    assert GeneratePath(dir, s1, x1) == p + t1;
    assert GeneratePath(dir, s2, x2) == p + t2;
    assert t1 == (p + t1)[|p|..];
    assert t2 == (p + t2)[|p|..];
    assert t1[..|s1|] == s1 && t1[|s1|] == '.';
    assert t2[..|s2|] == s2 && t2[|s2|] == '.';
    IndexOfAt(t1, '.', |s1|);
    IndexOfAt(t2, '.', |s2|);
    assert t1[|s1| + 1..] == x1;
    assert t2[|s2| + 1..] == x2;
  }

  /** Distinct keys never share a file, and a key's three files are distinct. */
  lemma KeyPathsDistinct(dir: string, k1: ByteString, x1: string, k2: ByteString, x2: string)
    requires GeneratePath(dir, Sanitize(k1), x1) == GeneratePath(dir, Sanitize(k2), x2)
    ensures k1 == k2 && x1 == x2
  {
    EncodeIsFileStem(k1);
    EncodeIsFileStem(k2);
    PathInjective(dir, Sanitize(k1), x1, Sanitize(k2), x2);
    EncodeInjective(k1, k2);
  }

  /**
   * `codeFile[len(cacheDir) + 1:-len('.code')]`: the stem of a code file's
   * path; a start past the end gives the empty text, as a Python slice does.
   */
  function StemOf(dir: string, path: string): string
    requires |path| >= 5
  {
    if |dir| + 1 <= |path| - 5 then path[|dir| + 1..|path| - 5] else ""
  }

  /** The stem is read back from the path of a code file. */
  lemma StemOfCodePath(dir: string, stem: string)
    ensures |GeneratePath(dir, stem, "code")| >= |dir| + 6
    ensures StemOf(dir, GeneratePath(dir, stem, "code")) == stem
  {
    var path := GeneratePath(dir, stem, "code");
    assert path == (dir + "/") + stem + ".code";
    assert path[|dir| + 1..|path| - 5] == stem;
  }

  /** A name the pattern `*.code` matches in a listing: hidden names (a leading '.') are skipped. */
  predicate IsCodeName(name: string) {
    |name| >= 6 && EndsWith(name, ".code") && '/' !in name && name[0] != '.'
  }

  /** A file of the disk that is a code file directly in the directory. */
  predicate IsCodeFile(dir: string, path: string) {
    StartsWith(path, dir + "/") && IsCodeName(path[|dir| + 1..])
  }

  /**
   * The directory part of the paths that the glob of `traverse` yields: the
   * glob splits off the directory, drops its trailing slashes (unless it is
   * all slashes) and joins each name of the listing to it with one '/'.
   */
  function GlobDir(dir: string): (r: string)
    ensures |r| >= 1 && r[|r| - 1] == '/' && |r| <= |dir| + 1
    ensures r[..|r| - 1] == dir[..|r| - 1] && forall i | |r| - 1 <= i < |dir| :: dir[i] == '/'
    ensures |r| >= 2 && r[|r| - 2] == '/' ==> r == dir + "/"
    ensures dir == [] || dir[|dir| - 1] != '/' ==> r == dir + "/"
  {
    var kept := RStrip(dir, {'/'});
    if kept == [] then dir + "/" else kept + "/"
  }

  /** The path the glob yields for a code file of the disk. */
  function Globbed(dir: string, path: string): (r: string)
    requires IsCodeFile(dir, path)
    ensures |r| >= 6 && EndsWith(r, ".code") && r == GlobDir(dir) + path[|dir| + 1..]
  {
    GlobDir(dir) + path[|dir| + 1..]
  }

  /** The paths that the glob of `traverse` yields. */
  function CodeFiles(d: Disk, dir: string): (r: set<string>)
    ensures forall p | p in d.code && IsCodeFile(dir, p) :: Globbed(dir, p) in r
    ensures forall q | q in r :: |q| >= 6 && EndsWith(q, ".code")
  {
    set p | p in d.code && IsCodeFile(dir, p) :: Globbed(dir, p)
  }

  /** The code file of a key with a non-empty encoding matches the glob. */
  lemma CodePathIsCodeFile(dir: string, key: ByteString)
    requires key != []
    ensures IsCodeFile(dir, CodePath(dir, key))
  {
    var stem := Sanitize(key);
    EncodeBytesLength(Bytes(key));
    CodeNameOf(dir, stem);
    StemIsCodeName(stem);
  }

  /** A non-empty stem with no '/' and no '.' gives a code name the glob lists. */
  lemma StemIsCodeName(stem: string)
    requires stem != [] && '/' !in stem && '.' !in stem
    ensures IsCodeName(stem + ".code")
  {
    var name := stem + ".code";
    assert name[|name| - 5..] == ".code";
    assert name[0] == stem[0] && stem[0] in stem;
  }

  /**
   * Without a trailing '/' on the directory, the glob yields a code file under
   * the very path it was written to, and its stem reads back.
   */
  lemma GlobbedCodePath(dir: string, stem: string)
    requires dir == [] || dir[|dir| - 1] != '/'
    requires IsCodeFile(dir, GeneratePath(dir, stem, "code"))
    ensures Globbed(dir, GeneratePath(dir, stem, "code")) == GeneratePath(dir, stem, "code")
    ensures StemOf(dir, GeneratePath(dir, stem, "code")) == stem
  {
    var path := GeneratePath(dir, stem, "code");
    assert path == (dir + "/") + path[|dir| + 1..];
    StemOfCodePath(dir, stem);
  }

  /**
   * A directory that ends in k slashes (and is not all slashes) shifts the
   * stem: the glob yields the path with those slashes collapsed into one,
   * but the slice still skips `len(cacheDir) + 1` characters, so the stem
   * read back loses its first k characters.
   */
  lemma TrailingSlashShiftsStem(dir: string, stem: string)
    requires RStrip(dir, {'/'}) != []
    requires IsCodeFile(dir, GeneratePath(dir, stem, "code"))
    ensures var k := |dir| - |RStrip(dir, {'/'})|;
      var q := Globbed(dir, GeneratePath(dir, stem, "code"));
      q == RStrip(dir, {'/'}) + "/" + stem + ".code"
      && StemOf(dir, q) == if k <= |stem| then stem[k..] else ""
  {
    var kept := RStrip(dir, {'/'});
    CodeNameOf(dir, stem);
    assert GlobDir(dir) == kept + "/";
    assert Globbed(dir, GeneratePath(dir, stem, "code")) == (kept + "/") + (stem + ".code");
    assert (kept + "/") + (stem + ".code") == kept + "/" + stem + ".code";
    ShiftedSlice(dir, kept, stem);
  }

  /** The name of a code file in its directory: the stem, then `.code`. */
  lemma CodeNameOf(dir: string, stem: string)
    ensures GeneratePath(dir, stem, "code")[|dir| + 1..] == stem + ".code"
  {
    var path := GeneratePath(dir, stem, "code");
    assert path == (dir + "/") + (stem + ".code");
  }

  /** The slice of `traverse`, applied to a path under a directory k characters shorter than `dir`. */
  lemma ShiftedSlice(dir: string, kept: string, stem: string)
    requires |kept| <= |dir|
    ensures var k := |dir| - |kept|;
      StemOf(dir, kept + "/" + stem + ".code") == if k <= |stem| then stem[k..] else ""
  {
    var q := kept + "/" + stem + ".code";
    var k := |dir| - |kept|;
    if k <= |stem| {
      assert q[|dir| + 1..|q| - 5] == stem[k..];
    }
  }

  /**
   * With the cache directory "c/", the code file "c//QUJD.code" (the key
   * "ABC") is globbed as "c/QUJD.code", whose stem reads as "UJD"; decoding
   * that raises, so `traverse` stops there.
   */
  lemma TrailingSlashBreaksTraverse(d: Disk)
    ensures IsCodeFile("c/", "c//QUJD.code") && Globbed("c/", "c//QUJD.code") == "c/QUJD.code"
    ensures StemOf("c/", "c/QUJD.code") == "UJD" && ItemAt(d, "c/", "c/QUJD.code") == None
  {
    CollapsedGlob();
    ShiftedStemRaises();
  }

  /** The glob collapses the doubled slash of "c//QUJD.code". */
  lemma CollapsedGlob()
    ensures IsCodeFile("c/", "c//QUJD.code") && Globbed("c/", "c//QUJD.code") == "c/QUJD.code"
  {
    var path := "c//QUJD.code";
    assert path[..3] == "c//" && path[3..] == "QUJD.code";
    assert RStrip("c/", {'/'}) == "c";
  }

  /** The stem of "c/QUJD.code" under the directory "c/" is "UJD", and its decoding raises. */
  lemma ShiftedStemRaises()
    ensures StemOf("c/", "c/QUJD.code") == "UJD" && Decode("UJD") == None
  {
    assert "c/QUJD.code"[3..6] == "UJD";
    ScanStep('D', "", 2, 3);
    ScanStep('J', "D", 1, 9);
    ScanStep('U', "JD", 0, 20);
    assert |Scan("UJD", 0).0| == 3 && !Scan("UJD", 0).1;
  }

  // ---------------------------------------------------------------- the specification of a lookup

  /** Every dependency still exists and has the recorded whole-second mtime. */
  predicate Fresh(recorded: map<string, MTime>, mtimes: map<string, MTime>) {
    forall p | p in recorded :: p in mtimes && Trunc(mtimes[p]) == Trunc(recorded[p])
  }

  /** A recorded dependency whose whole-second mtime is now different. */
  predicate Mismatched(recorded: map<string, MTime>, mtimes: map<string, MTime>, p: string) {
    p in recorded && p in mtimes && Trunc(mtimes[p]) != Trunc(recorded[p])
  }

  /** `_loadDependenciesFile`: open and parse the deps file at `path`. */
  function LoadDeps(d: Disk, path: string): (r: Result<DepsDoc>)
    ensures r.Ok? <==> path in d.deps && d.deps[path] != Unparsable
    ensures r.Ok? ==> r.value == d.deps[path]
  {
    if path !in d.deps then Raise(IOError(path))
    else if d.deps[path].Unparsable? then Raise(ValueError("No JSON object could be decoded"))
    else Ok(d.deps[path])
  }

  /** The manifest recorded for a stem, if its deps file holds one. */
  function ManifestOf(d: Disk, dir: string, stem: string): Option<map<string, MTime>> {
    var path := GeneratePath(dir, stem, "deps");
    if path in d.deps && d.deps[path].Manifest? then Some(d.deps[path].mtimes) else None
  }

  /**
   * What `get(key)` returns: the code when the code file exists, the deps
   * file holds a manifest and every dependency is fresh; otherwise None.
   */
  function LookupOn(d: Disk, dir: string, key: ByteString, mtimes: map<string, MTime>): Option<string> {
    var codePath := CodePath(dir, key);
    var m := ManifestOf(d, dir, Sanitize(key));
    if codePath in d.code && m.Some? && Fresh(m.value, mtimes) then Some(d.code[codePath]) else None
  }

  /** `install(key, entry)`: write the code file, then the deps file (`null` when deps is None). */
  function InstalledOn(d: Disk, dir: string, key: ByteString, e: Entry): Disk {
    d.(code := d.code[CodePath(dir, key) := e.code],
       deps := d.deps[DepsPath(dir, key) := if e.deps.Some? then Manifest(e.deps.value) else NotAnObject])
  }

  /** `removeKey(stem)`: break the lock, then unlink the deps and code files if they exist. */
  function RemovedOn(d: Disk, dir: string, stem: string): Disk {
    Disk(d.code - {GeneratePath(dir, stem, "code")},
         d.deps - {GeneratePath(dir, stem, "deps")},
         d.locks - {GeneratePath(dir, stem, "lock")})
  }

  /** `shutil.rmtree(cacheDir)`: every file under the directory is gone. */
  function CleanedOn(d: Disk, dir: string): Disk {
    var under := dir + "/";
    Disk(map p | p in d.code && !StartsWith(p, under) :: d.code[p],
         map p | p in d.deps && !StartsWith(p, under) :: d.deps[p],
         set p | p in d.locks && !StartsWith(p, under))
  }

  /** One item of `traverse`: the stem, the key's ':'-separated parts, the parsed deps or the error, the lock path. */
  datatype Item = Item(stem: string, args: seq<string>, deps: Result<DepsDoc>, lock: string)

  /**
   * The item `traverse` yields for a code file, or None when decoding its stem
   * raises: `urlsafe_b64decode` skips characters outside the alphabet and
   * stops at a pad sequence, and raises only when bits are left over unpadded.
   */
  function ItemAt(d: Disk, dir: string, path: string): Option<Item>
    requires |path| >= 5
  {
    var stem := StemOf(dir, path);
    var key := Decode(stem);
    if key.None? then None
    else Some(Item(stem, Split(key.value, ':'), LoadDeps(d, GeneratePath(dir, stem, "deps")),
                   GeneratePath(dir, stem, "lock")))
  }

  // ---------------------------------------------------------------- the engine

  class FileCache {
    const cacheDir: string
    var disk: Disk
    /** Whether the cache directory exists: `clean` removes the directory itself. */
    var dirExists: bool

    /**
     * `FileCache(cacheDir)` over a directory whose current contents are `disk`;
     * `_ensure_dir` creates it when missing, which `os.makedirs` refuses for
     * the empty name.
     */
    constructor(cacheDir: string, disk: Disk)
      requires cacheDir != ""
      ensures this.cacheDir == cacheDir && this.disk == disk && dirExists
    {
      this.cacheDir := cacheDir;
      this.disk := disk;
      dirExists := true;
    }

    function Lookup(key: ByteString, mtimes: map<string, MTime>): Option<string>
      reads this
    {
      LookupOn(disk, cacheDir, key, mtimes)
    }

    /**
     * Acquire the key's lock file. With the directory gone no lock file can be
     * created; a lock already held times out (60 s) and raises.
     */
    method Lock(key: ByteString) returns (r: Result<()>)
      modifies this
      ensures dirExists == old(dirExists)
      ensures !dirExists ==> r == Raise(LockFailed(LockPath(cacheDir, key))) && disk == old(disk)
      ensures dirExists && LockPath(cacheDir, key) in old(disk.locks) ==>
        r == Raise(LockTimeout(LockPath(cacheDir, key))) && disk == old(disk)
      ensures dirExists && LockPath(cacheDir, key) !in old(disk.locks) ==>
        r == Ok(()) && disk == old(disk).(locks := old(disk.locks) + {LockPath(cacheDir, key)})
    {
      var path := LockPath(cacheDir, key);
      if !dirExists {
        return Raise(LockFailed(path));
      }
      if path in disk.locks {
        return Raise(LockTimeout(path));
      }
      disk := disk.(locks := disk.locks + {path});
      return Ok(());
    }

    /** Release the key's lock file (the `finally` of `lock`). */
    method Unlock(key: ByteString)
      modifies this
      ensures dirExists == old(dirExists)
      ensures disk == old(disk).(locks := old(disk.locks) - {LockPath(cacheDir, key)})
    {
      disk := disk.(locks := disk.locks - {LockPath(cacheDir, key)});
    }

    /**
     * `_validateDependencies(stem)`: load the deps file and compare each
     * dependency's whole-second mtime with the recorded one, in the
     * dictionary's own (unspecified) order, stopping at the first mismatch.
     * A missing or unreadable deps file, a deps file that is not a JSON
     * object and a dependency that no longer exists all raise.
     */
    method ValidateDependencies(stem: string, mtimes: map<string, MTime>) returns (r: Result<bool>)
      ensures r == Ok(true) <==> ManifestOf(disk, cacheDir, stem).Some? && Fresh(ManifestOf(disk, cacheDir, stem).value, mtimes)
      ensures r == Ok(false) ==> (ManifestOf(disk, cacheDir, stem).Some? &&
        exists p :: Mismatched(ManifestOf(disk, cacheDir, stem).value, mtimes, p))
      ensures r.Raise? ==> (ManifestOf(disk, cacheDir, stem).None? ||
        exists p :: p in ManifestOf(disk, cacheDir, stem).value && p !in mtimes)
    {
      var loaded := LoadDeps(disk, GeneratePath(cacheDir, stem, "deps"));
      if loaded.Raise? {
        return Raise(loaded.exc);
      }
      if !loaded.value.Manifest? {
        return Raise(Raised("AttributeError: no iteritems"));
      }
      var recorded := loaded.value.mtimes;
      var pending := recorded.Keys;
      while pending != {}
        invariant pending <= recorded.Keys
        invariant forall p | p in recorded && p !in pending :: p in mtimes && Trunc(mtimes[p]) == Trunc(recorded[p])
        decreases |pending|
      {
        var p :| p in pending;
        if p !in mtimes {
          return Raise(OSError(p));
        }
        if Trunc(mtimes[p]) != Trunc(recorded[p]) {
          assert Mismatched(recorded, mtimes, p);
          return Ok(false);
        }
        pending := pending - {p};
      }
      return Ok(true);
    }

    /** `get(key)`: never raises; any failure reads as a miss. */
    method Get(key: ByteString, mtimes: map<string, MTime>) returns (r: Option<string>)
      ensures r == Lookup(key, mtimes)
    {
      var stem := Sanitize(key);
      var codePath := GeneratePath(cacheDir, stem, "code");
      if codePath !in disk.code {
        return None;
      }
      var valid := ValidateDependencies(stem, mtimes);
      if valid != Ok(true) {
        return None;
      }
      return Some(disk.code[codePath]);
    }

    /** `install(key, entry)`: opening the code file for writing raises once the directory is gone. */
    method Install(key: ByteString, e: Entry) returns (r: Result<()>)
      modifies this
      ensures dirExists == old(dirExists)
      ensures !dirExists ==> r == Raise(IOError(CodePath(cacheDir, key))) && disk == old(disk)
      ensures dirExists ==> r == Ok(()) && disk == InstalledOn(old(disk), cacheDir, key, e)
    {
      if !dirExists {
        return Raise(IOError(CodePath(cacheDir, key)));
      }
      var stem := Sanitize(key);
      disk := disk.(code := disk.code[GeneratePath(cacheDir, stem, "code") := e.code]);
      disk := disk.(deps := disk.deps[GeneratePath(cacheDir, stem, "deps") :=
        if e.deps.Some? then Manifest(e.deps.value) else NotAnObject]);
      return Ok(());
    }

    /**
     * `clean()`: refuses an empty directory name, which would make every path
     * "under" it; otherwise removes the directory with everything in it.
     */
    method Clean() returns (r: Result<()>)
      modifies this
      ensures cacheDir == "" ==> r == Raise(CleanRefused) && disk == old(disk) && dirExists == old(dirExists)
      ensures cacheDir != "" ==> r == Ok(()) && disk == CleanedOn(old(disk), cacheDir) && !dirExists
    {
      if cacheDir == "" {
        return Raise(CleanRefused);
      }
      disk := CleanedOn(disk, cacheDir);
      dirExists := false;
      return Ok(());
    }

    /** `break_lock(stem)`: remove the stem's lock file whoever holds it. */
    method BreakLock(stem: string)
      modifies this
      ensures dirExists == old(dirExists)
      ensures disk == old(disk).(locks := old(disk.locks) - {GeneratePath(cacheDir, stem, "lock")})
    {
      disk := disk.(locks := disk.locks - {GeneratePath(cacheDir, stem, "lock")});
    }

    /** `removeKey(stem)`. */
    method RemoveKey(stem: string)
      modifies this
      ensures dirExists == old(dirExists)
      ensures disk == RemovedOn(old(disk), cacheDir, stem)
    {
      BreakLock(stem);
      var deps := GeneratePath(cacheDir, stem, "deps");
      if deps in disk.deps {
        disk := disk.(deps := disk.deps - {deps});
      }
      var code := GeneratePath(cacheDir, stem, "code");
      if code in disk.code {
        disk := disk.(code := disk.code - {code});
      }
    }

    /**
     * `traverse()`: for each code file, in directory order, the item of its
     * stem. A stem whose decoding raises "Incorrect padding" makes the
     * generator raise after the items already produced; `paths` are the code
     * files visited.
     */
    method Traverse() returns (items: seq<Item>, paths: seq<string>, err: Option<Exception>)
      ensures |items| == |paths|
      ensures Distinct(paths)
      ensures forall i | 0 <= i < |paths| :: paths[i] in CodeFiles(disk, cacheDir) && ItemAt(disk, cacheDir, paths[i]) == Some(items[i])
      ensures err.None? ==> forall p | p in CodeFiles(disk, cacheDir) :: p in paths
      ensures err.Some? ==> exists p | p in CodeFiles(disk, cacheDir) && p !in paths :: ItemAt(disk, cacheDir, p).None?
    {
      var all := CodeFiles(disk, cacheDir);
      var pending := all;
      items, paths, err := [], [], None;
      while pending != {}
        invariant pending <= all
        invariant Visited(disk, cacheDir, paths, items)
        invariant Distinct(paths)
        invariant forall i | 0 <= i < |paths| :: paths[i] !in pending
        invariant forall p | p in all && p !in pending :: p in paths
        decreases |pending|
      {
        var p :| p in pending;
        var item := ItemAt(disk, cacheDir, p);
        if item.None? {
          return items, paths, Some(TypeError("Incorrect padding"));
        }
        DistinctSnoc(paths, p);
        VisitedSnoc(disk, cacheDir, paths, items, p, item.value);
        items, paths := items + [item.value], paths + [p];
        pending := pending - {p};
      }
    }
  }

  /** No element occurs twice. */
  predicate Distinct<T(==)>(s: seq<T>) {
    forall i, j | 0 <= i < j < |s| :: s[i] != s[j]
  }

  lemma DistinctSnoc<T>(s: seq<T>, x: T)
    requires Distinct(s) && x !in s
    ensures Distinct(s + [x])
  {
  }

  /** `items` are the items of the code files `paths`, one for one. */
  predicate Visited(d: Disk, dir: string, paths: seq<string>, items: seq<Item>) {
    |items| == |paths|
    && forall i | 0 <= i < |paths| :: paths[i] in CodeFiles(d, dir) && ItemAt(d, dir, paths[i]) == Some(items[i])
  }

  lemma VisitedSnoc(d: Disk, dir: string, paths: seq<string>, items: seq<Item>, p: string, item: Item)
    requires Visited(d, dir, paths, items)
    requires p in CodeFiles(d, dir) && ItemAt(d, dir, p) == Some(item)
    ensures Visited(d, dir, paths + [p], items + [item])
  {
  }

  /**
   * `clean` removes the directory itself, so on the same cache object a later
   * `install` cannot open its code file and a later `lock` cannot create its
   * lock file; only a new cache object (whose constructor creates the
   * directory again) can store seeds there.
   */
  method CleanThenInstallRaises(dir: string, d: Disk, key: ByteString, e: Entry)
    returns (cleaned: Result<()>, installed: Result<()>, locked: Result<()>, again: Result<()>)
    requires dir != ""
    ensures cleaned == Ok(())
    ensures installed == Raise(IOError(CodePath(dir, key))) && locked == Raise(LockFailed(LockPath(dir, key)))
    ensures again == Ok(())
  {
    var c := new FileCache(dir, d);
    cleaned := c.Clean();
    installed := c.Install(key, e);
    locked := c.Lock(key);
    var reopened := new FileCache(dir, c.disk);
    again := reopened.Install(key, e);
  }

  /** `fileCacheDir()`: `$SEED_CACHE_DIR`, else `.seedcache` beside the working directory. */
  function FileCacheDir(cwd: string, env: map<string, string>): (r: string)
    ensures "SEED_CACHE_DIR" in env ==> r == env["SEED_CACHE_DIR"]
    ensures "SEED_CACHE_DIR" !in env ==> r == Dirname(cwd) + "/.seedcache"
    ensures "SEED_CACHE_DIR" !in env ==> EndsWith(r, "/.seedcache") && StartsWith(r, Dirname(cwd))
  {
    if "SEED_CACHE_DIR" in env then env["SEED_CACHE_DIR"]
    else
      ConcatEnds(Dirname(cwd), "/.seedcache");
      Dirname(cwd) + "/.seedcache"
  }

  // ---------------------------------------------------------------- properties of the cache

  /** A key never installed is a miss. */
  lemma NeverInstalledMisses(d: Disk, dir: string, key: ByteString, mtimes: map<string, MTime>)
    requires CodePath(dir, key) !in d.code
    ensures LookupOn(d, dir, key, mtimes) == None
  {
  }

  /** After `install`, `get` returns the installed code while every dependency keeps its whole-second mtime. */
  lemma InstallThenHit(d: Disk, dir: string, key: ByteString, code: string, m: map<string, MTime>, mtimes: map<string, MTime>)
    requires Fresh(m, mtimes)
    ensures LookupOn(InstalledOn(d, dir, key, Entry(code, Some(m))), dir, key, mtimes) == Some(code)
  {
    InstalledManifest(d, dir, key, Entry(code, Some(m)));
  }

  /** After `install`, the key's code file holds the code and its deps file the manifest. */
  lemma InstalledManifest(d: Disk, dir: string, key: ByteString, e: Entry)
    ensures CodePath(dir, key) in InstalledOn(d, dir, key, e).code
    ensures InstalledOn(d, dir, key, e).code[CodePath(dir, key)] == e.code
    ensures ManifestOf(InstalledOn(d, dir, key, e), dir, Sanitize(key)) == e.deps
  {
    if CodePath(dir, key) == DepsPath(dir, key) {
      KeyPathsDistinct(dir, key, "code", key, "deps");
    }
  }

  /** A dependency whose whole-second mtime changed, or that is gone, makes `get` miss. */
  lemma StaleMisses(d: Disk, dir: string, key: ByteString, mtimes: map<string, MTime>, p: string)
    requires ManifestOf(d, dir, Sanitize(key)).Some?
    requires p in ManifestOf(d, dir, Sanitize(key)).value
    requires p !in mtimes || Trunc(mtimes[p]) != Trunc(ManifestOf(d, dir, Sanitize(key)).value[p])
    ensures LookupOn(d, dir, key, mtimes) == None
  {
  }

  /** An entry installed without dependencies (deps None, stored as `null`) is never returned. */
  lemma NoDepsNeverHits(d: Disk, dir: string, key: ByteString, code: string, mtimes: map<string, MTime>)
    ensures LookupOn(InstalledOn(d, dir, key, Entry(code, None)), dir, key, mtimes) == None
  {
    InstalledManifest(d, dir, key, Entry(code, None));
  }

  /** A change within the same second is invisible: the truncated mtimes still agree, so `get` still hits. */
  lemma SameSecondStillHits(d: Disk, dir: string, key: ByteString, code: string, p: string, t: MTime, t2: MTime)
    requires Trunc(t) == Trunc(t2)
    ensures LookupOn(InstalledOn(d, dir, key, Entry(code, Some(map[p := t]))), dir, key, map[p := t2]) == Some(code)
  {
    InstallThenHit(d, dir, key, code, map[p := t], map[p := t2]);
  }

  /** Installing one key leaves every other key's lookup as it was. */
  lemma InstallKeepsOthers(d: Disk, dir: string, key: ByteString, e: Entry, other: ByteString, mtimes: map<string, MTime>)
    requires other != key
    ensures LookupOn(InstalledOn(d, dir, key, e), dir, other, mtimes) == LookupOn(d, dir, other, mtimes)
  {
    var d2 := InstalledOn(d, dir, key, e);
    OtherKeyPathsDiffer(dir, key, other);
    assert (CodePath(dir, other) in d2.code) == (CodePath(dir, other) in d.code);
    assert ManifestOf(d2, dir, Sanitize(other)) == ManifestOf(d, dir, Sanitize(other));
  }

  /** Another key's code and deps files are neither of a key's two files. */
  lemma OtherKeyPathsDiffer(dir: string, key: ByteString, other: ByteString)
    requires other != key
    ensures CodePath(dir, other) != CodePath(dir, key) && CodePath(dir, other) != DepsPath(dir, key)
    ensures DepsPath(dir, other) != CodePath(dir, key) && DepsPath(dir, other) != DepsPath(dir, key)
  {
    if CodePath(dir, other) == CodePath(dir, key) {
      KeyPathsDistinct(dir, other, "code", key, "code");
    }
    if CodePath(dir, other) == DepsPath(dir, key) {
      KeyPathsDistinct(dir, other, "code", key, "deps");
    }
    if DepsPath(dir, other) == CodePath(dir, key) {
      KeyPathsDistinct(dir, other, "deps", key, "code");
    }
    if DepsPath(dir, other) == DepsPath(dir, key) {
      KeyPathsDistinct(dir, other, "deps", key, "deps");
    }
  }

  /** After `removeKey` of a key's stem that key misses; every other key's lookup is unchanged. */
  lemma RemoveKeyEffect(d: Disk, dir: string, key: ByteString, other: ByteString, mtimes: map<string, MTime>)
    ensures LookupOn(RemovedOn(d, dir, Sanitize(key)), dir, key, mtimes) == None
    ensures other != key ==>
      LookupOn(RemovedOn(d, dir, Sanitize(key)), dir, other, mtimes) == LookupOn(d, dir, other, mtimes)
  {
    if other != key {
      if CodePath(dir, other) == CodePath(dir, key) {
        KeyPathsDistinct(dir, other, "code", key, "code");
      }
      if DepsPath(dir, other) == DepsPath(dir, key) {
        KeyPathsDistinct(dir, other, "deps", key, "deps");
      }
    }
  }

  /** After `clean`, every key misses. */
  lemma CleanEmpties(d: Disk, dir: string, key: ByteString, mtimes: map<string, MTime>)
    ensures LookupOn(CleanedOn(d, dir), dir, key, mtimes) == None
  {
    var path := CodePath(dir, key);
    assert path == (dir + "/") + (Sanitize(key) + ".code");
    assert StartsWith(path, dir + "/");
  }

  /**
   * `traverse` gives back an installed key when the cache directory does not
   * end in '/': the glob yields the key's code file under the path it was
   * written to, decoding the stem and splitting on ':' gives the parts the
   * key was joined from, and the deps are the installed manifest.
   */
  lemma TraverseRecoversKey(d: Disk, dir: string, parts: seq<string>, e: Entry)
    requires dir == [] || dir[|dir| - 1] != '/'
    requires |parts| >= 1 && forall i | 0 <= i < |parts| :: ':' !in parts[i]
    requires IsBytes(Join(parts, ":")) && Join(parts, ":") != []
    ensures var key: ByteString := Join(parts, ":");
      var d2 := InstalledOn(d, dir, key, e);
      var path := CodePath(dir, key);
      path in CodeFiles(d2, dir) &&
      ItemAt(d2, dir, path) == Some(Item(Sanitize(key), parts,
        Ok(if e.deps.Some? then Manifest(e.deps.value) else NotAnObject), LockPath(dir, key)))
  {
    InstalledIsGlobbed(d, dir, Join(parts, ":"), e);
    InstalledItem(d, dir, parts, e);
  }

  /** The item read back at the code file of an installed key. */
  lemma InstalledItem(d: Disk, dir: string, parts: seq<string>, e: Entry)
    requires |parts| >= 1 && forall i | 0 <= i < |parts| :: ':' !in parts[i]
    requires IsBytes(Join(parts, ":"))
    ensures var key: ByteString := Join(parts, ":");
      |CodePath(dir, key)| >= 5 &&
      ItemAt(InstalledOn(d, dir, key, e), dir, CodePath(dir, key)) == Some(Item(Sanitize(key), parts,
        Ok(if e.deps.Some? then Manifest(e.deps.value) else NotAnObject), LockPath(dir, key)))
  {
    var key: ByteString := Join(parts, ":");
    StemOfCodePath(dir, Sanitize(key));
    DecodeEncode(key);
    SplitJoin(parts, ':');
    assert [':'] == ":";
  }

  /** Without a trailing '/' on the directory, the glob yields the code file of an installed non-empty key. */
  lemma InstalledIsGlobbed(d: Disk, dir: string, key: ByteString, e: Entry)
    requires dir == [] || dir[|dir| - 1] != '/'
    requires key != []
    ensures CodePath(dir, key) in CodeFiles(InstalledOn(d, dir, key, e), dir)
  {
    var d2 := InstalledOn(d, dir, key, e);
    CodePathIsCodeFile(dir, key);
    GlobbedCodePath(dir, Sanitize(key));
    assert CodePath(dir, key) in d2.code;
  }

  /** The code file of the empty key is the hidden name `.code`, which the glob skips. */
  lemma EmptyKeyHidden(dir: string)
    ensures !IsCodeFile(dir, CodePath(dir, []))
  {
    var path := CodePath(dir, []);
    assert path == (dir + "/") + ".code";
    assert path[|dir| + 1..] == ".code";
  }
}
