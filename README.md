# pyracktest seed subsystem, in Dafny

This project models the part of pyracktest that packs code into a *seed*
and runs it on a host under test:

- **Packing.** `SeedCreator` packs an entry point and its dependencies into an egg, with a dependency manifest of modification times.
- **Caching.** Three cache engines store seeds:
  - the file cache: a directory of `.code`, `.deps` and `.lock` files, keyed by the URL-safe base 64 of the key;
  - the memory cache: a shared dictionary behind one mutex;
  - the layered engine `FileBackedByMemory`.
- **Engine registry.** Engines are registered by name and created on demand.
- **Get or build.** `SeedCache` looks a seed up under the key's lock and builds and installs it on a miss. It falls back to an uncached build when the cache fails.
- **Invocation.** The `invocation` module defines the wire protocol: an egg, an args file, a result file, and a pid file and output file for background jobs.
- **The `seed` plugin.** It provides `runCode`, `runCallable`, `forkCode` and `forkCallable`, plus the handle of a background job: `poll`, `result`, `output`, `kill`.
- **The executioner.** It keeps the stack of cleanup callbacks, the hosts of a scenario, the release of hosts, and the decision to free the allocation. It also reads an existing allocation id from the environment.
- **The rackattack allocation.** It holds the requirements sent per host and the release and free of nodes.

One Dafny module stands for each source file:

| module | file |
|---|---|
| `Memorycache` | `memorycache.py` |
| `Cacheregistry` | `cacheregistry.py` |
| `Registrations` | the import-time `register` calls |
| `Filecache` | `filecache.py` |
| `Backedfilecache` | `backedfilecache.py` |
| `Seedcache` | `seedcache.py` |
| `Seedcreator` | `seedcreator.py` |
| `Invocation` | `invocation.py` |
| `SeedPlugin` | `builtinplugins/seed.py` |
| `Executioner` | `executioner.py` |
| `Rackattack` | `rackattackallocation.py` |

Shared modules:

- `Py`: Option, Result, the exceptions raised.
- `Values`: Python values, truthiness, `str`, `dict.get`/`pop`.
- `Strs`: string helpers, `int()` parsing, decimal text.
- `Base64Url`: section 5 of RFC 4648, decoded as leniently as Python 2 does, with its round trip.
- `SeedEntry`: the `{'code', 'deps'}` entry.
- `Remote`: the host as the seed subsystem sees it, meaning files put and got over FTP and scripts run over SSH.

State the source changes in place is a Dafny `class`:

- the memory cache, the file cache and the layered engine;
- the registry and the seed cache;
- the scratch directory of the packer;
- the remote host and the forked job;
- the allocation and the executioner.

Pure logic is functions, with lemmas about them. Loops stay loops with their invariants:

- the manifest loop of `_parseDepsFile`;
- the dependency check of `_validateDependencies`;
- the traversal of the cache directory;
- the retries of `_getPid`;
- the cleanup stack;
- the requirement loop.

The model keeps these choices of the code:

- **Storage identifier.** The file cache names a key by its base 64 text, not by a cryptographic digest. The memory cache uses the key's `hash` attribute.
- **Deps file.** It holds only the mtimes, and there is no manifest of the key.
- **Freshness.** It compares whole seconds (`int(mtime)`).
- **Lock timeout.** A held lock file times out after 60 seconds with no stale-owner recovery. `break_lock` is a separate call.
- **One memory mutex.** The memory cache locks one process-wide mutex whatever the key. When it is held the acquire times out, and the guarded block still runs (`OneMutexForAllKeys`).
- **Revisions that do not fit together.** The plugin calls `seedcreator.seedFactory` and a cache method `make`, and neither exists in the files it imports. `SeedCache.makeSeed` passes `noCache` on to a creator that does not accept it. The model states what each file does on its own terms (see "Left out").

## Model

| member | source | states |
|---|---|---|
| Base64Url.Encode | py/strato/racktest/infra/seed/filecache.py:36-37 | a stem is four characters per started group of three bytes, each from the URL-safe alphabet or '=' |
| Base64Url.Decode | py/strato/racktest/infra/seed/filecache.py:107 | decoding fails ("Incorrect padding") exactly when no pad ended the text and the values read leave bits over; otherwise three bytes per four values |
| Base64Url.DecodeEncode | py/strato/racktest/infra/seed/filecache.py:36-37 | decoding the URL-safe base 64 stem of a key gives the key back |
| Base64Url.DecodeReadsBothAlphabets | py/strato/racktest/infra/seed/filecache.py:107 | '+' decodes as '-' does, so both alphabets are read |
| Base64Url.DecodeStopsAtPadding | py/strato/racktest/infra/seed/filecache.py:107 | a pad after two values ends the text, and what follows is ignored |
| Base64Url.DecodeSkipsForeignCharacters | py/strato/racktest/infra/seed/filecache.py:107 | a character outside both alphabets is skipped |
| Base64Url.DecodeRefusesLeftoverBits | py/strato/racktest/infra/seed/filecache.py:107 | three values with no pad are refused |
| Base64Url.EncodeInjective | py/strato/racktest/infra/seed/filecache.py:36-37 | distinct keys get distinct file-name stems |
| Base64Url.EncodeIsFileStem | py/strato/racktest/infra/seed/filecache.py:36-37 | a stem holds neither '/' nor '.', so it stays one file name in the cache directory |
| Base64Url.EncodeBytesLength | py/strato/racktest/infra/seed/filecache.py:36-37 | a stem is 4 characters per started group of 3 bytes |
| Memorycache.MemoryCache.constructor | py/strato/racktest/infra/seed/memorycache.py:8-11 | a new engine has an empty shared dictionary and a free mutex |
| Memorycache.MemoryCache.Acquire | py/strato/racktest/infra/seed/memorycache.py:13-15 | the acquire succeeds exactly when the mutex was free, the mutex is held afterwards whatever the key, and the dictionary is untouched |
| Memorycache.MemoryCache.Release | py/strato/racktest/infra/seed/memorycache.py:16-19 | leaving the block by any exit frees the mutex |
| Memorycache.MemoryCache.Get | py/strato/racktest/infra/seed/memorycache.py:21-22 | a hit exactly when the key's hash has a slot, with that slot's code |
| Memorycache.MemoryCache.Install | py/strato/racktest/infra/seed/memorycache.py:24-26 | only the entry's code is stored, in the slot of the key's hash |
| Memorycache.InstallThenGet | py/strato/racktest/infra/seed/memorycache.py:21-26 | a fresh engine misses; after an install, any key with the same hash hits with the code and a key with another hash misses |
| Memorycache.OneMutexForAllKeys | py/strato/racktest/infra/seed/memorycache.py:13-19 | while one key's block holds the mutex, another key's acquire fails; the mutex is free afterwards |
| Cacheregistry.Registry.constructor | py/strato/racktest/infra/seed/cacheregistry.py:1 | the registry starts empty |
| Cacheregistry.Registry.Register | py/strato/racktest/infra/seed/cacheregistry.py:4-5 | the creator is stored under its name, replacing any earlier one |
| Cacheregistry.Registry.Create | py/strato/racktest/infra/seed/cacheregistry.py:8-9 | no name gives None without a lookup, an unknown name is a KeyError, and otherwise the creator's result or exception is passed on |
| Cacheregistry.ReregisterOverrides | py/strato/racktest/infra/seed/cacheregistry.py:4-9 | after two registrations under one name, `create` calls the later creator |
| Registrations.CreateAfterImports | py/strato/racktest/infra/seed/memorycache.py:28-29 | after both engine modules are imported: 'file' gives a file cache at the default directory, or raises OSError when that directory is the empty text (`os.makedirs('')`), 'memory' raises TypeError, another name a KeyError, no name None |
| Filecache.Trunc | py/strato/racktest/infra/seed/filecache.py:57-58 | `int()` of an mtime truncates toward zero |
| Filecache.GeneratePath | py/strato/racktest/infra/seed/filecache.py:24-25 | the path is a name in the cache directory ending in `.` and the suffix, and the stem reads back from it |
| Filecache.Sanitize | py/strato/racktest/infra/seed/filecache.py:36-37 | the file-name stem holds no '/' and no '.', and decodes back to the key |
| Filecache.LockPath | py/strato/racktest/infra/seed/filecache.py:27-28 | the lock file is `dir/<stem>.lock`, and the key reads back from its stem |
| Filecache.DepsPath | py/strato/racktest/infra/seed/filecache.py:30-31 | the manifest is `dir/<stem>.deps`, and the key reads back from its stem |
| Filecache.CodePath | py/strato/racktest/infra/seed/filecache.py:33-34 | the code file is `dir/<stem>.code`, and the key reads back from its stem |
| Filecache.PathInjective | py/strato/racktest/infra/seed/filecache.py:24-25 | for dot-free stems, equal paths have equal stems and suffixes |
| Filecache.KeyPathsDistinct | py/strato/racktest/infra/seed/filecache.py:27-37 | distinct keys never share a file, and one key's code, deps and lock files are distinct |
| Filecache.StemOfCodePath | py/strato/racktest/infra/seed/filecache.py:105 | the slice in `traverse` reads the stem back from a code file's path |
| Filecache.CodePathIsCodeFile | py/strato/racktest/infra/seed/filecache.py:104 | the code file of every non-empty key is a non-hidden `.code` name directly in the directory, so the glob of `traverse` lists it |
| Filecache.EmptyKeyHidden | py/strato/racktest/infra/seed/filecache.py:104 | the empty key's code file is the hidden name `.code`, which the glob skips |
| Filecache.GlobDir | py/strato/racktest/infra/seed/filecache.py:104 | the glob yields each name under a prefix of the directory and one '/': only trailing slashes are dropped, and a doubled '/' remains only for a directory of slashes alone; a directory without a trailing '/' is kept as it is |
| Filecache.CodeFiles | py/strato/racktest/infra/seed/filecache.py:104 | every non-hidden `.code` file directly in the directory is yielded, under its globbed path, and every yielded path ends in `.code` |
| Filecache.GlobbedCodePath | py/strato/racktest/infra/seed/filecache.py:104-105 | for a directory without a trailing '/', the glob yields a code file under the path it was written to, and the slice reads its stem back |
| Filecache.TrailingSlashShiftsStem | py/strato/racktest/infra/seed/filecache.py:104-105 | for a directory ending in k slashes (not all slashes), the glob yields the collapsed path and the slice reads back the stem without its first k characters |
| Filecache.TrailingSlashBreaksTraverse | py/strato/racktest/infra/seed/filecache.py:104-107 | with the directory "c/", the code file "c//QUJD.code" is yielded as "c/QUJD.code", its stem reads as "UJD", and decoding that raises, so `traverse` stops there |
| Filecache.LoadDeps | py/strato/racktest/infra/seed/filecache.py:49-52 | a deps file loads exactly when it exists and is JSON, and the load gives what it holds |
| Filecache.FileCache.constructor | py/strato/racktest/infra/seed/filecache.py:16-22 | for a non-empty directory name, the engine is rooted at that directory, over its current contents, and the directory exists |
| Filecache.FileCache.Lock | py/strato/racktest/infra/seed/filecache.py:39-43 | with the cache directory gone the lock file cannot be created and nothing changes; a held lock file times out with nothing changed; otherwise the key's lock file is created and nothing else changes |
| Filecache.FileCache.Unlock | py/strato/racktest/infra/seed/filecache.py:44-47 | leaving the block removes the key's lock file and nothing else |
| Filecache.FileCache.ValidateDependencies | py/strato/racktest/infra/seed/filecache.py:54-63 | True exactly when the deps file holds a manifest whose every dependency exists with the recorded whole-second mtime; False only on a mismatch; a raise only when the manifest is missing or a dependency is gone |
| Filecache.FileCache.Get | py/strato/racktest/infra/seed/filecache.py:75-89 | never raises and returns the lookup: the code when its file exists and every dependency is fresh, otherwise None |
| Filecache.FileCache.Install | py/strato/racktest/infra/seed/filecache.py:91-96 | with the cache directory gone an IOError and nothing changes; otherwise writes the code file, then the deps file (`null` when deps is None) |
| Filecache.FileCache.Clean | py/strato/racktest/infra/seed/filecache.py:98-101 | an empty directory name is refused with nothing changed; otherwise every file under the directory is gone, and so is the directory |
| Filecache.CleanThenInstallRaises | py/strato/racktest/infra/seed/filecache.py:98-101 | after `clean`, `install` raises IOError and `lock` fails on the same engine; a new engine at that directory installs again |
| Filecache.FileCache.BreakLock | py/strato/racktest/infra/seed/filecache.py:123-124 | the stem's lock file is removed, whoever holds it |
| Filecache.FileCache.RemoveKey | py/strato/racktest/infra/seed/filecache.py:118-121 | the stem's lock, deps and code files are gone and nothing else changes |
| Filecache.FileCache.Traverse | py/strato/racktest/infra/seed/filecache.py:103-112 | each path the glob yields (trailing slashes of the directory collapsed) is visited at most once and yields the item of the stem the slice cuts from it; without an error every such path is visited, and an error comes only from a stem whose values leave bits over with no pad |
| Filecache.FileCacheDir | py/strato/racktest/infra/seed/filecache.py:127-129 | `$SEED_CACHE_DIR` when set, else exactly the working directory's parent followed by `/.seedcache` |
| Filecache.NeverInstalledMisses | py/strato/racktest/infra/seed/filecache.py:78-79 | a key whose code file does not exist misses |
| Filecache.InstallThenHit | py/strato/racktest/infra/seed/filecache.py:75-96 | after an install, `get` returns the installed code while every dependency keeps its whole-second mtime |
| Filecache.InstalledManifest | py/strato/racktest/infra/seed/filecache.py:91-96 | after an install the code file holds the code and the deps file the manifest |
| Filecache.StaleMisses | py/strato/racktest/infra/seed/filecache.py:54-63 | a dependency whose whole-second mtime changed, or that is gone, makes `get` miss |
| Filecache.NoDepsNeverHits | py/strato/racktest/infra/seed/filecache.py:54-56 | an entry installed with deps None (`null` on disk) is never returned |
| Filecache.SameSecondStillHits | py/strato/racktest/infra/seed/filecache.py:57-58 | a change within the same second is invisible, so `get` still hits |
| Filecache.InstallKeepsOthers | py/strato/racktest/infra/seed/filecache.py:91-96 | installing one key leaves every other key's lookup as it was |
| Filecache.RemoveKeyEffect | py/strato/racktest/infra/seed/filecache.py:118-121 | after `removeKey` of a key's stem that key misses, and every other key's lookup is unchanged |
| Filecache.CleanEmpties | py/strato/racktest/infra/seed/filecache.py:98-101 | after `clean` every key misses |
| Filecache.TraverseRecoversKey | py/strato/racktest/infra/seed/filecache.py:103-112 | for a directory without a trailing '/' and a non-empty key, the glob yields the installed key's code file, and `traverse` gives back the key's ':'-separated parts, its stem, its installed deps and its lock path |
| Backedfilecache.FileBackedByMemory.constructor | py/strato/racktest/infra/seed/backedfilecache.py:6-8 | for a non-empty directory name, a file cache at that directory and a fresh memory cache |
| Backedfilecache.FileBackedByMemory.Get | py/strato/racktest/infra/seed/backedfilecache.py:10-20 | a truthy memory slot answers as is; otherwise the file engine answers and its hit is copied into memory; the mutex is free afterwards |
| Backedfilecache.FileBackedByMemory.Install | py/strato/racktest/infra/seed/backedfilecache.py:22-25 | with the cache directory gone the file store's IOError escapes and memory is untouched; otherwise the entry goes to the file store and its code to the memory slot |
| Backedfilecache.BackfillSurvivesStaleness | py/strato/racktest/infra/seed/backedfilecache.py:10-20 | after a backfill, a dependency change makes the file engine miss, and the layered engine still returns the code |
| Backedfilecache.EmptyCodeIsAMemoryMiss | py/strato/racktest/infra/seed/backedfilecache.py:13 | empty code is falsy: once the file goes stale the layered engine misses although memory holds the code |
| Backedfilecache.DoubleMissLeavesMemory | py/strato/racktest/infra/seed/backedfilecache.py:15-17 | a miss in both stores gives None and memory stays empty |
| Seedcache.Extend | py/strato/racktest/infra/seed/seedcache.py:12-21 | a call that respects the locking discipline keeps a trace well locked, and updates the held locks and the install count |
| Seedcache.LockedBlock | py/strato/racktest/infra/seed/seedcache.py:12-23 | a `with lock(key)` block of calls on that key keeps the trace well locked, releases its lock and adds its installs |
| Seedcache.Engine.Lock | py/strato/racktest/infra/seed/seedcache.py:12 | entering the key's lock is recorded, or raises when the engine's lock fails |
| Seedcache.Engine.Get | py/strato/racktest/infra/seed/seedcache.py:13 | `get` is recorded and gives the stored seed or None, or raises |
| Seedcache.Engine.Install | py/strato/racktest/infra/seed/seedcache.py:21 | `install` is recorded and stores the code, or raises with the store unchanged |
| Seedcache.Engine.Unlock | py/strato/racktest/infra/seed/seedcache.py:12 | leaving the lock is recorded |
| Seedcache.Call | py/strato/racktest/infra/seed/seedcache.py:19 | a pack argument named `generateDependencies` is a TypeError before the creator runs; otherwise the creator's result |
| Seedcache.Uncached | py/strato/racktest/infra/seed/seedcache.py:28 | the uncached build succeeds exactly when the creator does, with the code of its entry |
| Seedcache.SeedCache.constructor | py/strato/racktest/infra/seed/seedcache.py:7-9 | keeps the engine and the creator; nothing built yet |
| Seedcache.SeedCache.Build | py/strato/racktest/infra/seed/seedcache.py:19 | the creator's result, and the run recorded with its dependency flag |
| Seedcache.SeedCache.CreateSeedFromCache | py/strato/racktest/infra/seed/seedcache.py:11-23 | result, store, engine calls and builds are exactly one pass of the cached path |
| Seedcache.SeedCache.MakeSeed | py/strato/racktest/infra/seed/seedcache.py:25-34 | no engine or `noCache`: the uncached build, with the engine untouched; otherwise the cached path, and the uncached build when it raised; only the uncached build lets an exception out |
| Seedcache.CachedKeepsLocking | py/strato/racktest/infra/seed/seedcache.py:11-23 | the cached path keeps every `get` and `install` under its key's lock, leaves no lock held and installs at most once |
| Seedcache.CachedBlock | py/strato/racktest/infra/seed/seedcache.py:11-23 | the cached path's calls are none, or one lock block on the key with at most one install inside |
| Seedcache.CachedHit | py/strato/racktest/infra/seed/seedcache.py:13-16 | a hit returns the stored seed, builds nothing and installs nothing |
| Seedcache.CachedMiss | py/strato/racktest/infra/seed/seedcache.py:17-23 | a miss builds once with dependencies and installs its code under the key, exactly once |
| Seedcache.TwoMakesOneInstall | py/strato/racktest/infra/seed/seedcache.py:25-34 | two makes of one key give the same seed, with one build and one install in all, and a well-locked trace |
| Seedcache.BrokenEngineFallsBack | py/strato/racktest/infra/seed/seedcache.py:29-34 | an engine whose lock, get or install fails still yields the uncached build and stores nothing |
| Seedcache.NoCacheBypasses | py/strato/racktest/infra/seed/seedcache.py:26-28 | with `noCache` set, the engine is never called even when it holds the key |
| Seedcreator.Construct | py/strato/racktest/infra/seed/seedcreator.py:11-18 | an unknown keyword is a TypeError; each option is the one given or its default |
| Seedcreator.BasenameTest | py/strato/racktest/infra/seed/seedcreator.py:20-21 | a dependency is recorded exactly when its basename is not the entry point's |
| Seedcreator.DepPaths | py/strato/racktest/infra/seed/seedcreator.py:25-28 | the lines after the first, each stripped of blanks and backslashes |
| Seedcreator.FirstLineDiscarded | py/strato/racktest/infra/seed/seedcreator.py:24-25 | the first line never reaches the manifest, whatever it says |
| Seedcreator.ManifestKeys | py/strato/racktest/infra/seed/seedcreator.py:23-36 | every manifest key is the absolute form of a listed path, mapped to that file's mtime |
| Seedcreator.ManifestComplete | py/strato/racktest/infra/seed/seedcreator.py:23-36 | every listed path is in the manifest under its absolute form |
| Seedcreator.ManifestFails | py/strato/racktest/infra/seed/seedcreator.py:33-35 | parsing raises OSError exactly when a listed path's file does not exist |
| Seedcreator.EntryPointNeverManifested | py/strato/racktest/infra/seed/seedcreator.py:31-32 | when `abspath` keeps the last component, the entry point never appears in a manifest |
| Seedcreator.ParseDepsFile | py/strato/racktest/infra/seed/seedcreator.py:23-36 | the loop builds the manifest of the file's listed paths |
| Seedcreator.ManifestLines | py/strato/racktest/infra/seed/seedcreator.py:27-35 | line by line: blank lines and the entry point skipped, others recorded, the first missing file ends it with OSError |
| Seedcreator.ManifestEntry | py/strato/racktest/infra/seed/seedcreator.py:38-41 | the entry's code is the egg; it has deps exactly when there is a dependency file; without one it never fails |
| Seedcreator.GenerateManifest | py/strato/racktest/infra/seed/seedcreator.py:38-41 | the entry of the egg and the parsed dependency file |
| Seedcreator.CodeFile | py/strato/racktest/infra/seed/seedcreator.py:46 | the entry point's path starts with the code directory and ends with its name |
| Seedcreator.CodeFileUnder | py/strato/racktest/infra/seed/seedcreator.py:46 | the entry point is written inside the code directory |
| Seedcreator.ExcludeList | py/strato/racktest/infra/seed/seedcreator.py:51-52 | None gives no list; a list gives its items and a text its one-character strings; any other value raises TypeError |
| Seedcreator.ExcludeArgs | py/strato/racktest/infra/seed/seedcreator.py:51-52 | nothing when `excludePackages` is None, else `--excludeModule` and each package; a non-iterable raises |
| Seedcreator.Command | py/strato/racktest/infra/seed/seedcreator.py:51-60 | the fixed prefix, the namespace flag right after it exactly when namespaces are joined, the deps file last when dependencies are generated; only a non-iterable exclusion list raises |
| Seedcreator.CommandRoundTrip | py/strato/racktest/infra/seed/seedcreator.py:56-60 | the packer's command line reads back as entry point, egg, each flag, the excluded packages, and the deps file only when dependencies are generated |
| Seedcreator.PythonPath | py/strato/racktest/infra/seed/seedcreator.py:61-62 | no inherited `PYTHONPATH` is a KeyError |
| Seedcreator.PythonPathEntries | py/strato/racktest/infra/seed/seedcreator.py:61-62 | the search path is the code directory, the inherited entries, then the callable's root when given |
| Seedcreator.Pack | py/strato/racktest/infra/seed/seedcreator.py:53-68 | a packed entry has deps exactly when asked for, and its code is the egg the packer wrote for this command and environment; a packer failure raises with its output |
| Seedcreator.PackIn | py/strato/racktest/infra/seed/seedcreator.py:56-68 | build the command and environment, run the packer, read the egg and manifest |
| Seedcreator.TemporariesGone | py/strato/racktest/infra/seed/seedcreator.py:69-74 | writing, then deleting the temporaries and the code directory leaves every other file as it was |
| Seedcreator.Scratch.RemoveTree | py/strato/racktest/infra/seed/seedcreator.py:73-74 | the directory and every file under it are gone |
| Seedcreator.Scratch.Close | py/strato/racktest/infra/seed/seedcreator.py:69-72 | closing a named temporary file deletes it |
| Seedcreator.Scratch.Call | py/strato/racktest/infra/seed/seedcreator.py:43-74 | the result is the packing's; whatever it is, the temporaries and the code directory are gone and nothing else changed |
| Seedcreator.Creator | py/strato/racktest/infra/seed/seedcreator.py:11-18 | a keyword the constructor does not take is raised; otherwise the build is the packing of the constructed options |
| Seedcreator.CreatorRejectsNoCache | py/strato/racktest/infra/seed/seedcreator.py:11-12 | a pack argument `noCache`, which the seed cache passes on, makes every build a TypeError |
| Invocation.CallableCode | py/strato/racktest/infra/seed/invocation.py:4-16 | for names on one line each, the text read back line by line is the entry point's lines, and it ends with a newline |
| Invocation.CallableCodeLines | py/strato/racktest/infra/seed/invocation.py:4-16 | the entry point imports the module, reads the args file from `argv[1]`, calls the callable, and dumps to `argv[2]` |
| Invocation.SnippetOf | py/strato/racktest/infra/seed/invocation.py:19-25 | a snippet read back from an entry point rebuilds that entry point |
| Invocation.SnippetRoundTrip | py/strato/racktest/infra/seed/invocation.py:19-25 | the snippet is carried verbatim and reads back from its entry point |
| Invocation.SnippetCode | py/strato/racktest/infra/seed/invocation.py:19-25 | read line by line, the snippet's own lines sit between three fixed head lines and the lines that dump `result` to `argv[1]` |
| Invocation.PathsApart | py/strato/racktest/infra/seed/invocation.py:42-53 | the egg, args, result, pid and output files never coincide, whatever the tokens |
| Invocation.PathsInjective | py/strato/racktest/infra/seed/invocation.py:42-53 | distinct tokens never share a file |
| Invocation.ModuleArgsWords | py/strato/racktest/infra/seed/invocation.py:34-37 | the args file comes first exactly when there is input, and the result file comes last |
| Invocation.TimeoutKwargs | py/strato/racktest/infra/seed/invocation.py:31-33 | `outputTimeout` is passed exactly when it is not None |
| Invocation.RunCommand | py/strato/racktest/infra/seed/invocation.py:38-39 | the command sets `PYTHONPATH` to the egg, runs `seedentrypoint`, and passes the module arguments |
| Invocation.RunCommandAgrees | py/strato/racktest/infra/seed/invocation.py:28-39 | the command's egg, args file and result file are the ones uploaded and downloaded |
| Invocation.BackgroundCommand | py/strato/racktest/infra/seed/invocation.py:49-53 | three lines: write the pid file, set `PYTHONPATH`, `exec` the entry point with its output redirected |
| Remote.Host.PutContents | py/strato/racktest/infra/seed/invocation.py:30 | the uploaded file holds the contents, and nothing is run or read |
| Remote.Host.GetContents | py/strato/racktest/infra/seed/invocation.py:57 | one more read, giving the uploaded file or what the remote side produced by then |
| Remote.Host.RunScript | py/strato/racktest/infra/seed/invocation.py:38-39 | the script is recorded with its keywords and its answer returned |
| Remote.Host.BackgroundScript | py/strato/racktest/infra/seed/invocation.py:49-53 | the script is recorded as started in the background |
| Invocation.ExecuteWithResult | py/strato/racktest/infra/seed/invocation.py:28-39 | the egg is uploaded, one script runs with the timeout keyword, and its output is returned |
| Invocation.ExecuteInBackground | py/strato/racktest/infra/seed/invocation.py:42-53 | the egg is uploaded and the background script started |
| Invocation.DownloadResult | py/strato/racktest/infra/seed/invocation.py:56-57 | one read of the result file |
| Invocation.InstallArgs | py/strato/racktest/infra/seed/invocation.py:60-63 | the pickled `(args, kwargs)` are uploaded to the args file |
| Invocation.CallOnFreshHost | py/strato/racktest/infra/seed/invocation.py:28-57 | one call with input on a fresh host: exactly the args and the egg uploaded, one command run, and the written result read back |
| SeedPlugin.Unique | py/strato/racktest/hostundertest/builtinplugins/seed.py:103-104 | the token is 9 or 10 digits reading the drawn number |
| SeedPlugin.UniqueTokens | py/strato/racktest/hostundertest/builtinplugins/seed.py:103-104 | distinct draws give distinct tokens, each one word on one line |
| SeedPlugin.UniqueCommands | py/strato/racktest/hostundertest/builtinplugins/seed.py:103-104 | with such a token, the commands read back the args, result and pid files |
| SeedPlugin.KeyValues | py/strato/racktest/hostundertest/builtinplugins/seed.py:99 | one `key=value` item per pack argument |
| SeedPlugin.CacheKey | py/strato/racktest/hostundertest/builtinplugins/seed.py:98-101 | the callable's file, then ':', its name, then ':', then the pack arguments' items joined by ';' |
| SeedPlugin.CacheKeyFields | py/strato/racktest/hostundertest/builtinplugins/seed.py:98-101 | the key's first two ':'-fields are the callable's file and name |
| SeedPlugin.AsWrittenKey | py/strato/racktest/hostundertest/builtinplugins/seed.py:83-85 | as written, the text after `excludePackages=` is that of `takeSitePackages` |
| SeedPlugin.IntendedKey | py/strato/racktest/hostundertest/builtinplugins/seed.py:83-85 | as intended, the text after `excludePackages=` is that of the exclusion list |
| SeedPlugin.AsWrittenKeyCollides | py/strato/racktest/hostundertest/builtinplugins/seed.py:83-85 | as written, two different exclusion lists share a key |
| SeedPlugin.IntendedKeySeparates | py/strato/racktest/hostundertest/builtinplugins/seed.py:83-85 | the intended key tells exclusion lists apart exactly when their text differs |
| SeedPlugin.EngineClassFor | py/strato/racktest/hostundertest/builtinplugins/seed.py:107-115 | an unknown engine type is a ValueError; 'memory' also gives the file cache |
| SeedPlugin.Instantiate | py/strato/racktest/hostundertest/builtinplugins/seed.py:116 | calling either engine class with no arguments is a TypeError |
| SeedPlugin.GenerateSeedCache | py/strato/racktest/hostundertest/builtinplugins/seed.py:119-125 | importing never yields a cache: none when `SEED_CACHE` is unset, a ValueError for an unknown type, a TypeError for a known one |
| SeedPlugin.Prepare | py/strato/racktest/hostundertest/builtinplugins/seed.py:78-85 | the three pack arguments are popped with their defaults; the rest go to the call; the key is the intended one |
| SeedPlugin.AsWrittenSeed | py/strato/racktest/hostundertest/builtinplugins/seed.py:86-95 | as written, the seed is always the uncached build, whatever the cache answers |
| SeedPlugin.AsWrittenSeedIgnoresCache | py/strato/racktest/hostundertest/builtinplugins/seed.py:86-95 | as written, a cache that answers is overridden by an uncached build |
| SeedPlugin.IntendedSeedCases | py/strato/racktest/hostundertest/builtinplugins/seed.py:86-95 | no cache or `noCache`: the uncached build; a cache hit is used; a cache failure falls back, so no cache error escapes |
| SeedPlugin.GenerateSeed | py/strato/racktest/hostundertest/builtinplugins/seed.py:77-96 | a keyword named `self`, `callable` or `unique` is a TypeError with the host untouched; otherwise the call's own arguments, without the pack arguments, are uploaded; nothing is run or read; the seed is the intended one |
| SeedPlugin.RunCode | py/strato/racktest/hostundertest/builtinplugins/seed.py:24-40 | a snippet build failure is raised with nothing changed on the host; otherwise the egg is uploaded and one command without input runs with the timeout; a failing command is raised with nothing read; otherwise one read of the result file, whose text or exception comes back with the output |
| SeedPlugin.RunCallable | py/strato/racktest/hostundertest/builtinplugins/seed.py:42-54 | a keyword named `self`, `callable` or `unique` is a TypeError with the host untouched; `outputTimeout` goes to the script run and not to the callable; the arguments are uploaded; a seed failure is raised with nothing run; otherwise the egg is uploaded, one command with input runs, and one read of the result file gives the result with the output |
| SeedPlugin.ForkCode | py/strato/racktest/hostundertest/builtinplugins/seed.py:56-67 | a snippet build failure changes nothing; otherwise the egg is uploaded, the background script started, and the pid read as `_getPid` reads it: a fresh handle with that pid, or the last read's exception |
| SeedPlugin.ForkCallable | py/strato/racktest/hostundertest/builtinplugins/seed.py:69-75 | a keyword named `self`, `callable` or `unique` is a TypeError with the host untouched; otherwise the arguments are uploaded; a seed failure is raised with nothing run; otherwise the egg is uploaded, the background script started with input, and the pid read as `_getPid` reads it: a fresh handle with that pid, or the last read's exception |
| SeedPlugin.RetryOutcome | py/strato/racktest/hostundertest/builtinplugins/seed.py:134-140 | at most `retries + 1` reads; a success is the first successful read; a failure means every read failed |
| SeedPlugin.PidOf | py/strato/racktest/hostundertest/builtinplugins/seed.py:137 | the pid is the file's text stripped, or the read's exception |
| SeedPlugin.ReadRetrying | py/strato/racktest/hostundertest/builtinplugins/seed.py:135-140 | the loop's result and read count are those of the retry specification |
| SeedPlugin.GetPid | py/strato/racktest/hostundertest/builtinplugins/seed.py:134-140 | ten swallowed failures, then one whose failure escapes |
| SeedPlugin.Fork | py/strato/racktest/hostundertest/builtinplugins/seed.py:129-132 | a handle with the discovered pid, or the last read's exception |
| SeedPlugin.ReadOnThirdTry | py/strato/racktest/hostundertest/builtinplugins/seed.py:134-140 | a pid file written before the third read is read three times |
| SeedPlugin.NeverWritten | py/strato/racktest/hostundertest/builtinplugins/seed.py:134-140 | a pid file never written raises after eleven reads |
| SeedPlugin.PollAnswers | py/strato/racktest/hostundertest/builtinplugins/seed.py:142-148 | None exactly while no DEAD, False exactly when DEAD and FAILED, True exactly when DEAD and not FAILED |
| SeedPlugin.Forked.Poll | py/strato/racktest/hostundertest/builtinplugins/seed.py:142-148 | the answer of the two probes; the result probe runs only once the process is dead |
| SeedPlugin.Forked.Result | py/strato/racktest/hostundertest/builtinplugins/seed.py:150-151 | one read of the result file |
| SeedPlugin.Forked.Output | py/strato/racktest/hostundertest/builtinplugins/seed.py:153-154 | one read of the output file |
| SeedPlugin.SignalName | py/strato/racktest/hostundertest/builtinplugins/seed.py:157-158 | TERM when no signal is given, else its `str` |
| SeedPlugin.KillWords | py/strato/racktest/hostundertest/builtinplugins/seed.py:159 | the kill command is `kill`, the dashed signal, the pid |
| SeedPlugin.Forked.Kill | py/strato/racktest/hostundertest/builtinplugins/seed.py:156-159 | exactly one kill command runs; it fails exactly when the script does |
| SeedPlugin.ForkLateWriter | py/strato/racktest/hostundertest/builtinplugins/seed.py:128-148 | a pid file written late is read on the third try, stripped, and a live job polls None |
| SeedPlugin.PollFinished | py/strato/racktest/hostundertest/builtinplugins/seed.py:142-148 | a dead job with a result polls True after running both probes |
| Rackattack.RequirementOf | py/strato/racktest/infra/rackattackallocation.py:46-55 | a host without 'rootfs' is a KeyError |
| Rackattack.RequirementFields | py/strato/racktest/infra/rackattackallocation.py:46-55 | pool, wildcard and product take their defaults; the hardware constraints are the entry without 'rootfs', and putting it back gives the entry |
| Rackattack.RequirementsPerHost | py/strato/racktest/infra/rackattackallocation.py:43-56 | one requirement per host, each its own; a KeyError exactly when some host lacks 'rootfs' |
| Rackattack.RackAttackAllocation.constructor | py/strato/racktest/infra/rackattackallocation.py:17-35 | the granted nodes, progress 0, no calls made |
| Rackattack.RackAttackAllocation.RackattackRequirements | py/strato/racktest/infra/rackattackallocation.py:43-56 | the loop builds the requirements of all hosts |
| Rackattack.RackAttackAllocation.Free | py/strato/racktest/infra/rackattackallocation.py:40-41 | one free call and nothing else |
| Rackattack.RackAttackAllocation.ReleaseHost | py/strato/racktest/infra/rackattackallocation.py:68-76 | an unknown name is a ValueError with nothing changed; the last node frees the allocation, any other is released alone; the name leaves the nodes |
| Rackattack.RackAttackAllocation.Progress | py/strato/racktest/infra/rackattackallocation.py:94-95 | keeps the latest percent |
| Rackattack.LastNode | py/strato/racktest/infra/rackattackallocation.py:72-73 | the node whose release frees the allocation is the one that leaves none |
| Rackattack.ReleaseBoth | py/strato/racktest/infra/rackattackallocation.py:68-76 | releasing both of two nodes releases one and frees with the other; a third release is a ValueError |
| Strs.ParseInt | py/strato/racktest/infra/executioner.py:241 | a text holding a NUL never parses; any other parse is that of the text with its surrounding whitespace stripped |
| Strs.ParseIntParts | py/strato/racktest/infra/executioner.py:241 | only a text whose stripped form is a sign ("", "+" or "-"), blanks after a sign, and at least one digit parses, and it parses to the signed value of those digits |
| Strs.ParseIntOfShape | py/strato/racktest/infra/executioner.py:241 | conversely, every text without NUL whose stripped form has that shape parses to the signed value of its digits |
| Strs.BlankAfterSign | py/strato/racktest/infra/executioner.py:241 | `int('- 5') == -5`: a blank between the minus sign and the digits is skipped |
| Values.Str | py/strato/racktest/hostundertest/builtinplugins/seed.py:99 | `"%s"` of a text is the text itself, of a boolean `True` or `False`, of an integer its decimal text, of a list a bracketed text |
| Values.StrIntRoundTrip | py/strato/racktest/hostundertest/builtinplugins/seed.py:99 | an integer's `str` reads back through `int()` |
| Values.Pop | py/strato/racktest/hostundertest/builtinplugins/seed.py:78-80 | the value is what `get` with the default gives, and the dictionary loses exactly that key |
| Strs.ParseIntRoundTrip | py/strato/racktest/infra/executioner.py:241 | `int()` reads back a decimal, also before a newline |
| Executioner.EnvFlagSet | py/strato/racktest/infra/executioner.py:37 | the flag is set exactly when the variable is present and reads 'true' in any case |
| Executioner.ReadAllocationFromFile | py/strato/racktest/infra/executioner.py:243-254 | a missing file is an IOError and an empty one an IndexError |
| Executioner.SetupExistingAllocation | py/strato/racktest/infra/executioner.py:234-241 | no `ALLOCATION_ID` asks for a new allocation; any successful read gives an id |
| Executioner.AllocationIdFromEnv | py/strato/racktest/infra/executioner.py:240-241 | an id written in the environment is that id |
| Executioner.AllocationIdFromFile | py/strato/racktest/infra/executioner.py:238-247 | 'allocation.ID' reads the id from the file's first line, whatever follows |
| Executioner.AllocationFileMissing | py/strato/racktest/infra/executioner.py:245 | a missing file raises IOError |
| Executioner.AllocationFileEmpty | py/strato/racktest/infra/executioner.py:247 | an empty file raises IndexError |
| Executioner.AllocationIdNotANumber | py/strato/racktest/infra/executioner.py:241 | a word raises ValueError |
| Executioner.Filename | py/strato/racktest/infra/executioner.py:143-147 | `.pyc` loses its last character; other names are kept |
| Executioner.FilenameOfCompiled | py/strato/racktest/infra/executioner.py:145-146 | `x.pyc` names `x.py` |
| Executioner.FilenameIdempotent | py/strato/racktest/infra/executioner.py:143-147 | mapping a name twice is mapping it once |
| Executioner.FreeDecision | py/strato/racktest/infra/executioner.py:74-75 | as written: free exactly when some host is left and `KEEP_ALLOCATION` is not 'true' |
| Executioner.FreeDecisionsAgree | py/strato/racktest/infra/executioner.py:74-75 | when the hosts are the allocation's nodes, the written and intended decisions agree |
| Executioner.Executioner.constructor | py/strato/racktest/infra/executioner.py:29-38 | the timeouts are the test's or the defaults (600 and 300 seconds); `KEEP_ALLOCATION` is read; the existing allocation id is what `_setupExistingAllocation` reads from the environment and the allocation file; empty stack and hosts |
| Executioner.Executioner.AddCleanup | py/strato/racktest/infra/executioner.py:98-99 | pushes the callback with its arguments |
| Executioner.Executioner.CleanUp | py/strato/racktest/infra/executioner.py:83-96 | every callback runs, the latest first; failures are logged and skipped; the stack ends empty |
| Executioner.Executioner.SetUpHost | py/strato/racktest/infra/executioner.py:149-168 | a name the allocation lacks is a KeyError; otherwise it becomes a host |
| Executioner.Executioner.ReleaseHost | py/strato/racktest/infra/executioner.py:101-106 | a non-host is a ValueError with nothing changed; otherwise the allocation releases it and it stops being a host |
| Executioner.Executioner.TearDown | py/strato/racktest/infra/executioner.py:219-230 | with no host nothing happens; otherwise the test's `tearDown` runs and its error escapes |
| Executioner.Executioner.FinishAsWritten | py/strato/racktest/infra/executioner.py:72-81 | every cleanup runs, the latest first, with failures skipped; then free unless no host is left or the allocation is kept |
| Executioner.Executioner.Finish | py/strato/racktest/infra/executioner.py:72-81 | cleanup, then free whenever the allocation still holds nodes, unless kept |
| Executioner.CleanUpOrder | py/strato/racktest/infra/executioner.py:83-96 | cleanups registered a, b, c run c, b, a; b raising does not stop a |
| Executioner.NoHostCameUp | py/strato/racktest/infra/executioner.py:74-75 | as written, no host up means no free although a node is held; the intended end frees it |
| Executioner.ReleaseAllThenFinish | py/strato/racktest/infra/executioner.py:72-81 | releasing both hosts releases one and frees with the other; the end does not free again |

## Left out

- Logging, timers, sleeps and signals are not modelled:
  - the 0.1 s sleep between pid reads;
  - `TimeoutThread`, `_testTimedOut`, `_killSelf` and `_sendMeASignal`.
- Concurrency is not modelled:
  - `runOnEveryHost` and `concurrently`: each host's setup is one call, and `tearDownHost` on every host after the test's `tearDown` is not modelled;
  - races between processes on one cache directory: a held lock file times out.
- Pickling is not modelled: `cPickle.dumps` is a function parameter, and results are the raw text of the result file.
- Hosts and their transport are reduced to fixed functions of what is asked:
  - the rackattack client, `allocate`, `_waitForAllocation`, `_postMortemAllocation` and the allocation info;
  - SSH connect, `waitForTCPServer` and the post-mortem serial log;
  - detached nodes (`RUN_ON_DETACHED`).

  The allocation is built with the nodes it was granted, and a host is its name.
- File system and process calls are parameters:
  - `os.path.abspath`, `os.path.getmtime`, the packer's subprocess;
  - the temporary names from `mkdtemp` and `NamedTemporaryFile`;
  - the current directory and the environment.

  Whether the cache directory exists is one flag: the constructor creates it and `clean` removes it.
- Dictionary order is not modelled:
  - `_cacheKey` takes its pack arguments in the order `takeSitePackages`, `excludePackages`;
  - `_validateDependencies` and `traverse` visit in an unspecified order, and their contracts hold for any order.
- `executeTestScenario`'s `_setUp`, `_run` and the test's own methods are not modelled. The model keeps only the parts with state: setting up a host, tearing down, releasing, and the final cleanup and free.
- `Executioner(klass)` is built from the test's timeouts and environment, not from the test class. Setting `addCleanup` on the class is not modelled.
- Revisions that do not fit together:
  - `seedcreator.seedFactory` and the cache's `make` do not exist in the files imported; both are function parameters (`Factory`, `Maker`);
  - `SeedCache(engine)` is called with one argument, but engine construction always raises first (`GenerateSeedCache`);
  - the plugin's `cache.make(key, code, take, exclude)` is not `SeedCache.makeSeed`, whose model is separate.
- SeedPlugin.Prepare: computes the intended key, with `excludePackages=excludePackages`, not the key as written at seed.py:83-85; the key as written is `SeedPlugin.AsWrittenKey` (see "Findings").
- SeedPlugin.GenerateSeed: returns the intended seed, where a cache answer is used; as written the uncached build always replaces it, which is `SeedPlugin.AsWrittenSeed` (see "Findings").
- SeedPlugin.RunCallable: packs through `GenerateSeed`, so with the intended key and seed, not those as written.
- SeedPlugin.ForkCallable: packs through `GenerateSeed`, so with the intended key and seed, not those as written.
- Values.Str: a list's items are quoted but not escaped as `repr` escapes quotes and backslashes inside them.
- Filecache.FileCache.constructor: requires a non-empty directory name, because `os.makedirs('')` raises OSError; that raise is stated by `Registrations.CreateAfterImports`, where the directory comes from `$SEED_CACHE_DIR`.
- Backedfilecache.FileBackedByMemory.constructor: requires a non-empty directory name, because its file cache raises OSError first.
- Filecache.FileCache.Traverse: a cache directory whose name holds glob wildcards (`*`, `?`, `[`) is taken literally, where the glob would match it as a pattern.
- Executioner.Executioner.constructor: requires `_setupExistingAllocation` not to raise; its raises (an unreadable allocation file, a text that is not a decimal id) are stated by `Executioner.SetupExistingAllocation`.
- Seedcreator.Scratch.Call: requires a non-empty code directory, because `mkdtemp` always returns an absolute path.
- Seedcache.SeedCache.CreateSeedFromCache: requires an engine, which `makeSeed` checks before calling it.
- Transport failures on `putContents` are not modelled: uploads always succeed.
- Memorycache: a memory cache shared between processes through a `multiprocessing.Manager` is one object here.

## Findings

| source | as written | input that shows it | evidently intended | confidence | as-written member | corrected member |
|---|---|---|---|---|---|---|
| py/strato/racktest/hostundertest/builtinplugins/seed.py:95 | the uncached build sits after the `try`/`except`, so it replaces whatever `cache.make` returned | a cache whose `make` answers with seed A while the uncached build gives B: the plugin uses B | the uncached build only inside the `except`, when the cache fails | high, not executed | SeedPlugin.AsWrittenSeedIgnoresCache | SeedPlugin.IntendedSeedCases |
| py/strato/racktest/hostundertest/builtinplugins/seed.py:83-85 | the key passes `excludePackages=takeSitePackages` | `takeSitePackages=False` with `excludePackages=None` and with `['numpy']`: one key for two different seeds | `excludePackages=excludePackages` | high, not executed | SeedPlugin.AsWrittenKeyCollides | SeedPlugin.IntendedKeySeparates |
| py/strato/racktest/infra/executioner.py:74-75 | the allocation is freed only when some host is still set up | one node whose host fails to come up in `_setUpHost`: no host is set up, so the allocation is never freed although it holds the node | free whenever the allocation still holds nodes (none left means the last release already freed it) | low, not executed | Executioner.NoHostCameUp | Executioner.ReleaseAllThenFinish |
