/**
 * The two registrations the engine modules make when they are imported:
 * 'file' builds a file cache rooted at the default cache directory, and
 * 'memory' registers the memory cache's unbound initialiser, which raises a
 * TypeError when `create` calls it with no arguments.
 */
module Registrations {
  import opened Py
  import opened Cacheregistry
  import opened Filecache

  /** What a registered creator builds: a file cache, known by its directory. */
  datatype Built = FileCacheAt(dir: string)

  /**
   * The 'file' creator: `FileCache(fileCacheDir())` in working directory `cwd`
   * under environment `env`. An empty `SEED_CACHE_DIR` names no directory:
   * `os.makedirs('')` raises OSError.
   */
  function FileCreator(cwd: string, env: map<string, string>): () -> Result<Built> {
    () => if FileCacheDir(cwd, env) == "" then Raise(OSError("")) else Ok(FileCacheAt(FileCacheDir(cwd, env)))
  }

  /** The 'memory' creator: an unbound `__init__` called with no instance. */
  function MemoryCreator(): () -> Result<Built> {
    () => Raise(TypeError("unbound method __init__() must be called with MemoryCache instance as first argument"))
  }

  /**
   * The registry after both engine modules are imported, asked for `name`:
   * 'file' gives a file cache at the default directory, or OSError when that
   * directory is the empty name; 'memory' raises a TypeError, any other name
   * a KeyError, and no name gives None.
   */
  method CreateAfterImports(cwd: string, env: map<string, string>, name: Option<string>) returns (r: Result<Option<Built>>)
    ensures name == Some("file") && FileCacheDir(cwd, env) != "" ==> r == Ok(Some(FileCacheAt(FileCacheDir(cwd, env))))
    ensures name == Some("file") && FileCacheDir(cwd, env) == "" ==> r == Raise(OSError(""))
    ensures name == Some("memory") ==> r.Raise? && r.exc.TypeError?
    ensures name.Some? && name.value != "file" && name.value != "memory" ==> r == Raise(KeyError(name.value))
    ensures name.None? ==> r == Ok(None)
    ensures r.Ok? && r.value.Some? && "SEED_CACHE_DIR" in env ==> r.value.value.dir == env["SEED_CACHE_DIR"]
  {
    var registry := new Registry<Built>();
    registry.Register("memory", MemoryCreator());
    registry.Register("file", FileCreator(cwd, env));
    r := registry.Create(name);
  }
}
