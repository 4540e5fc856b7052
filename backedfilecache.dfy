/**
 * The layered engine `FileBackedByMemory`: a file cache with a memory cache
 * in front. A truthy memory entry answers at once; otherwise the file cache
 * answers and a file hit is copied into memory. Installs go to the file
 * cache first, then to memory. The source derives the class from
 * `FileCache`; here it holds its file cache and its memory cache.
 */
module Backedfilecache {
  import opened Py
  import opened Strs
  import opened SeedEntry
  import opened Filecache
  import opened Memorycache

  /** Python truthiness of a memory entry: None and the empty code are false. */
  predicate TruthyEntry(e: Option<string>) {
    e.Some? && e.value != ""
  }

  class FileBackedByMemory {
    const file: FileCache
    const memory: MemoryCache

    /** `FileBackedByMemory(cacheDir)` over a directory holding `disk`, with a fresh memory cache. */
    constructor(cacheDir: string, disk: Disk)
      requires cacheDir != ""
      ensures file.cacheDir == cacheDir && file.disk == disk && file.dirExists
      ensures memory.cache == map[] && !memory.locked
      ensures fresh(file) && fresh(memory)
    {
      file := new FileCache(cacheDir, disk);
      memory := new MemoryCache();
    }

    /**
     * `get(key)`: a truthy memory entry is returned as is, with no freshness
     * check; otherwise the file engine decides, and its hit is backfilled
     * into the memory slot of `key.hash`. The mutex is free afterwards.
     */
    method Get(key: Key, mtimes: map<string, MTime>) returns (r: Option<string>)
      modifies memory
      ensures TruthyEntry(old(memory.Slot(key))) ==> r == old(memory.Slot(key)) && memory.cache == old(memory.cache)
      ensures !TruthyEntry(old(memory.Slot(key))) ==> r == file.Lookup(key.text, mtimes)
      ensures !TruthyEntry(old(memory.Slot(key))) && r.None? ==> memory.cache == old(memory.cache)
      ensures !TruthyEntry(old(memory.Slot(key))) && r.Some? ==> memory.cache == old(memory.cache)[key.hash := r.value]
      ensures !memory.locked
    {
      var _ := memory.Acquire(key);
      var entry := memory.Get(key);
      memory.Release(key);
      if TruthyEntry(entry) {
        return entry;
      }
      r := file.Get(key.text, mtimes);
      if r.None? {
        return None;
      }
      var _ := memory.Acquire(key);
      memory.Install(key, Entry(r.value, None));
      memory.Release(key);
    }

    /**
     * `install(key, entry)`: the file store first, then the memory slot, under
     * the mutex; when the file store raises, memory is not touched.
     */
    method Install(key: Key, e: Entry) returns (r: Result<()>)
      modifies file, memory
      ensures file.dirExists == old(file.dirExists)
      ensures !file.dirExists ==>
        r == Raise(IOError(CodePath(file.cacheDir, key.text)))
        && file.disk == old(file.disk) && memory.cache == old(memory.cache) && memory.locked == old(memory.locked)
      ensures file.dirExists ==>
        r == Ok(()) && file.disk == InstalledOn(old(file.disk), file.cacheDir, key.text, e)
        && memory.cache == old(memory.cache)[key.hash := e.code] && !memory.locked
    {
      r := file.Install(key.text, e);
      if r.Raise? {
        return;
      }
      var _ := memory.Acquire(key);
      memory.Install(key, e);
      memory.Release(key);
    }
  }

  /**
   * A memory hit outlives the file's freshness: after a file hit has been
   * backfilled, a dependency whose whole-second mtime changes makes the
   * file engine miss but the layered engine still returns the code.
   */
  method BackfillSurvivesStaleness(dir: string, key: Key, code: string, p: string, t: MTime, later: MTime)
    returns (fileHit: Option<string>, stale: Option<string>, layered: Option<string>)
    requires dir != "" && code != "" && Trunc(later) != Trunc(t)
    ensures fileHit == Some(code) && stale == None && layered == Some(code)
  {
    var disk := InstalledOn(EmptyDisk, dir, key.text, Entry(code, Some(map[p := t])));
    var c := new FileBackedByMemory(dir, disk);
    InstallThenHit(EmptyDisk, dir, key.text, code, map[p := t], map[p := t]);
    fileHit := c.Get(key, map[p := t]);
    StaleMisses(disk, dir, key.text, map[p := later], p);
    stale := c.file.Get(key.text, map[p := later]);
    layered := c.Get(key, map[p := later]);
  }

  /**
   * Empty code is falsy, so it is never answered from memory: once the file
   * entry goes stale the layered engine misses too, although memory holds
   * the (empty) code.
   */
  method EmptyCodeIsAMemoryMiss(dir: string, key: Key, p: string, t: MTime, later: MTime)
    returns (first: Option<string>, second: Option<string>, kept: bool)
    requires dir != "" && Trunc(later) != Trunc(t)
    ensures first == Some("") && second == None && kept
  {
    var c := new FileBackedByMemory(dir, EmptyDisk);
    var _ := c.Install(key, Entry("", Some(map[p := t])));
    InstallThenHit(EmptyDisk, dir, key.text, "", map[p := t], map[p := t]);
    first := c.Get(key, map[p := t]);
    StaleMisses(c.file.disk, dir, key.text, map[p := later], p);
    second := c.Get(key, map[p := later]);
    kept := c.memory.Slot(key) == Some("");
  }

  /** A memory miss and a file miss: None, and memory is left as it was. */
  method DoubleMissLeavesMemory(dir: string, key: Key, mtimes: map<string, MTime>)
    returns (r: Option<string>, memoryEmpty: bool)
    requires dir != ""
    ensures r == None && memoryEmpty
  {
    var c := new FileBackedByMemory(dir, EmptyDisk);
    NeverInstalledMisses(EmptyDisk, dir, key.text, mtimes);
    r := c.Get(key, mtimes);
    memoryEmpty := c.memory.cache == map[];
  }
}
