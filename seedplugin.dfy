/**
 * The `seed` plugin of a host under test: the unique token that names one
 * invocation's files, the cache key of a callable, the choice of cache
 * engine from the environment, the seed a callable is packed into (through
 * the cache or around it), the four ways to run code on the host, and the
 * handle of a job forked in the background.
 *
 * `seedcreator.seedFactory` and the cache's `make` are not defined by the
 * code this plugin imports; both are parameters here (`Factory`, `Maker`).
 */
module SeedPlugin {
  import opened Py
  import opened Strs
  import opened Values
  import opened SeedEntry
  import opened Remote
  import opened Invocation

  // ---------------------------------------------------------------- unique token

  function Pow10(k: nat): (r: nat)
    ensures r >= 1
  {
    if k == 0 then 1 else 10 * Pow10(k - 1)
  }

  /** A number below `10^k` has at most `k` decimal digits. */
  lemma {:induction false} DecimalLength(n: nat, k: nat)
    requires k >= 1 && n < Pow10(k)
    ensures |NatToDecimal(n)| <= k
  {
    if n >= 10 {
      assert k >= 2;
      DecimalLength(n / 10, k - 1);
    }
  }

  /** `"%09d" % n` for the `n` that `random.randint(0, 1000 * 1000 * 1000)` drew. */
  function Unique(n: nat): (r: string)
    requires n <= 1000 * 1000 * 1000
    ensures 9 <= |r| <= 10
    ensures AllDigits(r) && DecimalValue(r) == n
  {
    assert Pow10(10) == 10000000000;
    DecimalLength(n, 10);
    ZeroPadded(n, 9)
  }

  /** Distinct draws give distinct tokens, and a token is one word on one line. */
  lemma UniqueTokens(m: nat, n: nat)
    requires m <= 1000 * 1000 * 1000 && n <= 1000 * 1000 * 1000
    ensures Unique(m) == Unique(n) <==> m == n
    ensures ' ' !in Unique(n) && '\n' !in Unique(n)
  {
  }

  /**
   * Because a token is one word on one line, every command built from it
   * reads back as intended: the synchronous command's first module argument
   * is the args file and its last the result file, and the background
   * script's first line writes the pid file.
   */
  lemma UniqueCommands(n: nat, hasInput: bool)
    requires n <= 1000 * 1000 * 1000
    ensures var u := Unique(n);
      var w := Split(RunCommand(u, hasInput), ' ');
      && (hasInput ==> |w| == 6 && w[4] == ArgsPath(u))
      && w[|w| - 1] == ResultPath(u)
      && Split(BackgroundCommand(u, hasInput), '\n')[0] == "echo $$ > " + PidPath(u)
  {
    var u := Unique(n);
    UniqueTokens(n, n);
    RunCommandAgrees(u, hasInput);
  }

  // ---------------------------------------------------------------- cache key

  /** The `"%s=%s" % (key, value)` items of the pack arguments, in the order given. */
  function KeyValues(packArgs: seq<(string, PyValue)>): (r: seq<string>)
    ensures |r| == |packArgs|
    ensures forall i | 0 <= i < |r| :: r[i] == packArgs[i].0 + "=" + Str(packArgs[i].1)
  {
    if |packArgs| == 0 then [] else [packArgs[0].0 + "=" + Str(packArgs[0].1)] + KeyValues(packArgs[1..])
  }

  /** The cache key of a callable: its file, its name, then the pack arguments joined by ';'. */
  function CacheKey(file: string, name: string, packArgs: seq<(string, PyValue)>): (r: string)
    ensures |r| >= |file| + |name| + 2
    ensures r[..|file|] == file && r[|file|] == ':'
    ensures r[|file| + 1..|file| + 1 + |name|] == name && r[|file| + 1 + |name|] == ':'
    ensures r[|file| + |name| + 2..] == Join(KeyValues(packArgs), ";")
  {
    var r := file + ":" + name + ":" + Join(KeyValues(packArgs), ";");
    assert r == file + ([':'] + (name + ([':'] + Join(KeyValues(packArgs), ";"))));
    r
  }

  /** For a file and a name without ':', the key's first two ':'-fields give them back. */
  lemma CacheKeyFields(file: string, name: string, packArgs: seq<(string, PyValue)>)
    requires ':' !in file && ':' !in name
    ensures var fields := Split(CacheKey(file, name, packArgs), ':');
      |fields| >= 3 && fields[0] == file && fields[1] == name
  {
    var args := Join(KeyValues(packArgs), ";");
    assert CacheKey(file, name, packArgs) == file + [':'] + (name + [':'] + args);
    SplitStep(file, name + [':'] + args, ':');
    SplitStep(name, args, ':');
  }

  /** The keyword arguments of the key, in the order this model fixes for them. */
  function PackArgs(takeSitePackages: PyValue, excludePackages: PyValue): seq<(string, PyValue)> {
    [("takeSitePackages", takeSitePackages), ("excludePackages", excludePackages)]
  }

  /**
   * The key as the plugin computes it: `excludePackages=takeSitePackages` is
   * passed, so the text after `excludePackages=` is that of `takeSitePackages`.
   */
  function AsWrittenKey(file: string, name: string, takeSitePackages: PyValue, excludePackages: PyValue): (r: string)
    ensures r == KeyPrefix(file, name, takeSitePackages) + Str(takeSitePackages)
  {
    KeyText(file, name, takeSitePackages, takeSitePackages);
    CacheKey(file, name, PackArgs(takeSitePackages, takeSitePackages))
  }

  /** The key the plugin evidently means: the text after `excludePackages=` is that of `excludePackages`. */
  function IntendedKey(file: string, name: string, takeSitePackages: PyValue, excludePackages: PyValue): (r: string)
    ensures r == KeyPrefix(file, name, takeSitePackages) + Str(excludePackages)
  {
    KeyText(file, name, takeSitePackages, excludePackages);
    CacheKey(file, name, PackArgs(takeSitePackages, excludePackages))
  }

  /**
   * As written, the key does not depend on `excludePackages`: a seed packed
   * without `numpy` and one packed with everything share a key.
   */
  lemma AsWrittenKeyCollides(file: string, name: string)
    ensures AsWrittenKey(file, name, PyBool(false), PyNone) == AsWrittenKey(file, name, PyBool(false), PyList(["numpy"]))
    ensures Str(PyNone) != Str(PyList(["numpy"]))
  {
    assert Str(PyNone)[0] == 'N';
  }

  /** What precedes the exclusion list's text in the intended key. */
  function KeyPrefix(file: string, name: string, take: PyValue): string {
    file + ":" + name + ":" + ("takeSitePackages" + "=" + Str(take)) + ";" + ("excludePackages" + "=")
  }

  /** The intended key tells two exclusion lists apart exactly when their text differs. */
  lemma IntendedKeySeparates(file: string, name: string, take: PyValue, e1: PyValue, e2: PyValue)
    ensures IntendedKey(file, name, take, e1) == IntendedKey(file, name, take, e2) <==> Str(e1) == Str(e2)
  {
    var front := KeyPrefix(file, name, take);
    if IntendedKey(file, name, take, e1) == IntendedKey(file, name, take, e2) {
      assert (front + Str(e1))[|front|..] == Str(e1);
      assert (front + Str(e2))[|front|..] == Str(e2);
    }
  }

  lemma JoinTwo(a: string, b: string, sep: string)
    ensures Join([a, b], sep) == a + sep + b
  {
    assert [a, b][1..] == [b];
  }

  lemma KeyAssoc<T>(x: seq<T>, a: seq<T>, s: seq<T>, p: seq<T>, t: seq<T>)
    ensures x + (a + s + (p + t)) == x + a + s + p + t
  {
  }

  lemma KeyText(file: string, name: string, take: PyValue, excl: PyValue)
    ensures CacheKey(file, name, PackArgs(take, excl)) == KeyPrefix(file, name, take) + Str(excl)
  {
    var a := "takeSitePackages" + "=" + Str(take);
    var p := "excludePackages" + "=";
    var kv := KeyValues(PackArgs(take, excl));
    assert kv == [a, p + Str(excl)];
    JoinTwo(a, p + Str(excl), ";");
    KeyAssoc(file + ":" + name + ":", a, ";", p, Str(excl));
  }

  // ---------------------------------------------------------------- cache engine

  /** The engine classes `SEED_CACHE` can name. */
  datatype EngineClass = FileBackedByMemoryClass | FileCacheClass

  /** The engine class for an engine type: 'memory' also gives the file cache; other names raise ValueError. */
  function EngineClassFor(engineType: string): (r: Result<EngineClass>)
    ensures r.Raise? <==> engineType !in {"filecached", "file", "memory"}
    ensures r.Raise? ==> r.exc == ValueError(engineType)
    ensures engineType == "memory" ==> r == Ok(FileCacheClass)
  {
    if engineType == "filecached" then Ok(FileBackedByMemoryClass)
    else if engineType == "file" || engineType == "memory" then Ok(FileCacheClass)
    else Raise(ValueError(engineType))
  }

  /**
   * What calling an engine class with no arguments raises: `FileCache`
   * requires a cache directory, and `FileBackedByMemory` passes None on to
   * `os.path.exists`, which rejects it.
   */
  function Instantiate(c: EngineClass): (e: Exception)
    ensures e.TypeError?
  {
    match c
    case FileCacheClass => TypeError("__init__() takes exactly 2 arguments (1 given)")
    case FileBackedByMemoryClass => TypeError("coercing to Unicode: need string or buffer, NoneType found")
  }

  /**
   * `generateSeedCache`: importing the plugin never yields a cache. With
   * `SEED_CACHE` unset there is none, with an unknown type a ValueError
   * escapes, and with a known type building the engine raises a TypeError.
   */
  function GenerateSeedCache(env: map<string, string>): (r: Result<Option<EngineClass>>)
    ensures r.Ok? <==> "SEED_CACHE" !in env
    ensures r.Ok? ==> r.value.None?
    ensures "SEED_CACHE" in env && env["SEED_CACHE"] !in {"filecached", "file", "memory"} ==>
      r == Raise(ValueError(env["SEED_CACHE"]))
    ensures "SEED_CACHE" in env && env["SEED_CACHE"] in {"filecached", "file", "memory"} ==>
      r.Raise? && r.exc.TypeError?
  {
    if "SEED_CACHE" !in env then Ok(None)
    else
      match EngineClassFor(env["SEED_CACHE"])
      case Raise(e) => Raise(e)
      case Ok(c) => Raise(Instantiate(c))
  }

  // ---------------------------------------------------------------- seed of a callable

  /** `seedcreator.seedFactory(code, generateDependencies, takeSitePackages, excludePackages)`. */
  type Factory = (string, bool, PyValue, PyValue) -> Result<Entry>
  /** The cache's `make(cacheKey, code, takeSitePackages, excludePackages)`. */
  type Maker = (string, string, PyValue, PyValue) -> Result<Entry>

  /** What the plugin takes out of a callable's keyword arguments before packing it. */
  datatype Prepared = Prepared(code: string, key: string, take: PyValue, excl: PyValue, noCache: PyValue, rest: Kwargs)

  const PackKeys: set<string> := {"excludePackages", "takeSitePackages", "noCache"}

  /**
   * Pop `excludePackages` (default None), `takeSitePackages` (default False)
   * and `noCache` (default False); the rest are the callable's own arguments.
   */
  function Prepare(moduleName: string, name: string, file: string, kwargs: Kwargs): (p: Prepared)
    ensures p.excl == Get(kwargs, "excludePackages", PyNone)
    ensures p.take == Get(kwargs, "takeSitePackages", PyBool(false))
    ensures p.noCache == Get(kwargs, "noCache", PyBool(false))
    ensures p.rest.Keys == kwargs.Keys - PackKeys
    ensures forall k | k in p.rest :: p.rest[k] == kwargs[k]
    ensures p.code == CallableCode(moduleName, name)
    ensures p.key == IntendedKey(file, name, p.take, p.excl)
  {
    var (excl, k1) := Pop(kwargs, "excludePackages", PyNone);
    var (take, k2) := Pop(k1, "takeSitePackages", PyBool(false));
    var (noCache, k3) := Pop(k2, "noCache", PyBool(false));
    Prepared(CallableCode(moduleName, name), IntendedKey(file, name, take, excl), take, excl, noCache, k3)
  }

  /**
   * The seed as the plugin computes it: whatever `make` gives is replaced by
   * an uncached build, so the seed is always the uncached build.
   */
  function AsWrittenSeed(cache: Option<Maker>, p: Prepared, factory: Factory): (r: Result<Entry>)
    ensures r == factory(p.code, false, p.take, p.excl)
  {
    if cache.None? || Truthy(p.noCache) then factory(p.code, false, p.take, p.excl)
    else
      var made := cache.value(p.key, p.code, p.take, p.excl);
      factory(p.code, false, p.take, p.excl)
  }

  /** The seed the plugin evidently means: the cache's seed, and an uncached build only when the cache fails. */
  function IntendedSeed(cache: Option<Maker>, p: Prepared, factory: Factory): Result<Entry> {
    if cache.None? || Truthy(p.noCache) then factory(p.code, false, p.take, p.excl)
    else
      match cache.value(p.key, p.code, p.take, p.excl)
      case Ok(seed) => Ok(seed)
      case Raise(_) => factory(p.code, false, p.take, p.excl)
  }

  /** As written, a cache that answers is ignored: the seed differs from the one it gave. */
  lemma AsWrittenSeedIgnoresCache(p: Prepared, cached: Entry, built: Entry)
    requires cached != built && !Truthy(p.noCache)
    ensures var make: Maker := (k: string, c: string, t: PyValue, e: PyValue) => Ok(cached);
      var factory: Factory := (c: string, g: bool, t: PyValue, e: PyValue) => Ok(built);
      AsWrittenSeed(Some(make), p, factory) == Ok(built) && IntendedSeed(Some(make), p, factory) == Ok(cached)
  {
  }

  /**
   * The intended seed: no cache or `noCache` builds without the cache; a
   * cache that answers is used and no build happens; a cache that raises
   * falls back to the uncached build, so cache errors never escape.
   */
  lemma IntendedSeedCases(cache: Option<Maker>, p: Prepared, factory: Factory)
    ensures cache.None? || Truthy(p.noCache) ==> IntendedSeed(cache, p, factory) == factory(p.code, false, p.take, p.excl)
    ensures cache.Some? && !Truthy(p.noCache) && cache.value(p.key, p.code, p.take, p.excl).Ok? ==>
      IntendedSeed(cache, p, factory) == cache.value(p.key, p.code, p.take, p.excl)
    ensures IntendedSeed(cache, p, factory).Raise? ==> IntendedSeed(cache, p, factory) == factory(p.code, false, p.take, p.excl)
  {
  }

  /**
   * The parameters `_generateSeedWithCacheWithNoCacheFallback(self, callable,
   * unique, ...)` binds by position (`runCallable` and `forkCallable` bind the
   * first two as well): a keyword argument of the same name is a TypeError
   * at the call, before anything is done.
   */
  const BoundNames: set<string> := {"self", "callable", "unique"}
  const MultipleValues := TypeError("got multiple values for keyword argument")

  /**
   * `_generateSeedWithCacheWithNoCacheFallback`: a keyword that clashes with a
   * bound parameter raises and leaves the host alone; otherwise upload the
   * call's own arguments, then pack the seed.
   */
  method GenerateSeed(host: Host, unique: string, moduleName: string, name: string, file: string,
                      args: seq<PyValue>, kwargs: Kwargs, cache: Option<Maker>, factory: Factory,
                      pickle: (seq<PyValue>, Kwargs) -> string)
    returns (r: Result<Entry>)
    modifies host
    ensures !(kwargs.Keys !! BoundNames) ==> r == Raise(MultipleValues) && unchanged(host)
    ensures kwargs.Keys !! BoundNames ==>
      host.files == old(host.files)[ArgsPath(unique) := pickle(args, Prepare(moduleName, name, file, kwargs).rest)]
    ensures host.runs == old(host.runs) && host.fetches == old(host.fetches)
    ensures kwargs.Keys !! BoundNames ==> r == IntendedSeed(cache, Prepare(moduleName, name, file, kwargs), factory)
  {
    if !(kwargs.Keys !! BoundNames) {
      return Raise(MultipleValues);
    }
    var p := Prepare(moduleName, name, file, kwargs);
    InstallArgs(host, unique, args, p.rest, pickle);
    if cache.None? || Truthy(p.noCache) {
      r := factory(p.code, false, p.take, p.excl);
    } else {
      var made := cache.value(p.key, p.code, p.take, p.excl);
      if made.Ok? {
        r := made;
      } else {
        r := factory(p.code, false, p.take, p.excl);
      }
    }
  }

  // ---------------------------------------------------------------- running code

  /**
   * What a synchronous run returns once its script printed `output`: the
   * result file's text with the output, or what reading the result file raised.
   */
  function Collected(read: Result<string>, output: string): (r: Result<(string, string)>)
    ensures r.Ok? <==> read.Ok?
    ensures r.Ok? ==> r.value.0 == read.value && r.value.1 == output
    ensures r.Raise? ==> r.exc == read.exc
  {
    if read.Ok? then Ok((read.value, output)) else Raise(read.exc)
  }

  /** `runCode`: pack a snippet without the cache, run it, and fetch its result and output. */
  method RunCode(host: Host, unique: string, code: string, take: PyValue, outputTimeout: PyValue, excl: PyValue, factory: Factory)
    returns (r: Result<(string, string)>)
    modifies host
    ensures var seed := factory(SnippetCode(code), false, take, excl);
      var out := host.answer(RunCommand(unique, false));
      && (seed.Raise? ==> r == Raise(seed.exc) && unchanged(host))
      && (seed.Ok? ==> host.files == old(host.files)[EggPath(unique) := seed.value.code])
      && (seed.Ok? ==> host.runs == old(host.runs) + [Script(RunCommand(unique, false), TimeoutKwargs(outputTimeout))])
      && (seed.Ok? && out.Raise? ==> r == Raise(out.exc) && host.fetches == old(host.fetches))
      && (seed.Ok? && out.Ok? ==>
            host.fetches == old(host.fetches) + 1
            && r == Collected(ReadFrom(host.files, host.produced, ResultPath(unique), old(host.fetches)), out.value))
  {
    var seed := factory(SnippetCode(code), false, take, excl);
    if seed.Raise? {
      return Raise(seed.exc);
    }
    var output := ExecuteWithResult(host, seed.value, unique, false, outputTimeout);
    if output.Raise? {
      return Raise(output.exc);
    }
    var result := DownloadResult(host, unique);
    if result.Raise? {
      return Raise(result.exc);
    }
    r := Ok((result.value, output.value));
  }

  /**
   * `runCallable`: pop `outputTimeout`, pack the callable, run it with input,
   * and fetch its result and output; a keyword that clashes with a bound
   * parameter raises before the host is touched.
   */
  method RunCallable(host: Host, unique: string, moduleName: string, name: string, file: string,
                     args: seq<PyValue>, kwargs: Kwargs, cache: Option<Maker>, factory: Factory,
                     pickle: (seq<PyValue>, Kwargs) -> string)
    returns (r: Result<(string, string)>)
    modifies host
    ensures !(kwargs.Keys !! BoundNames) ==> r == Raise(MultipleValues) && unchanged(host)
    ensures kwargs.Keys !! BoundNames ==>
      var p := Prepare(moduleName, name, file, kwargs - {"outputTimeout"});
      var seed := IntendedSeed(cache, p, factory);
      var out := host.answer(RunCommand(unique, true));
      var uploaded := old(host.files)[ArgsPath(unique) := pickle(args, p.rest)];
      && "outputTimeout" !in p.rest
      && (seed.Raise? ==>
            r == Raise(seed.exc) && host.files == uploaded
            && host.runs == old(host.runs) && host.fetches == old(host.fetches))
      && (seed.Ok? ==> host.files == uploaded[EggPath(unique) := seed.value.code])
      && (seed.Ok? ==>
            host.runs == old(host.runs) + [Script(RunCommand(unique, true), TimeoutKwargs(Get(kwargs, "outputTimeout", PyNone)))])
      && (seed.Ok? && out.Raise? ==> r == Raise(out.exc) && host.fetches == old(host.fetches))
      && (seed.Ok? && out.Ok? ==>
            host.fetches == old(host.fetches) + 1
            && r == Collected(ReadFrom(host.files, host.produced, ResultPath(unique), old(host.fetches)), out.value))
  {
    var popped := Pop(kwargs, "outputTimeout", PyNone);
    var outputTimeout, rest := popped.0, popped.1;
    assert rest == kwargs - {"outputTimeout"};
    assert rest.Keys !! BoundNames <==> kwargs.Keys !! BoundNames;
    var seed := GenerateSeed(host, unique, moduleName, name, file, args, rest, cache, factory, pickle);
    if seed.Raise? {
      return Raise(seed.exc);
    }
    var output := ExecuteWithResult(host, seed.value, unique, true, outputTimeout);
    if output.Raise? {
      return Raise(output.exc);
    }
    var result := DownloadResult(host, unique);
    if result.Raise? {
      return Raise(result.exc);
    }
    r := Ok((result.value, output.value));
  }

  /** `forkCode`: pack a snippet without the cache, start it in the background, and read its pid. */
  method ForkCode(host: Host, unique: string, code: string, take: PyValue, excl: PyValue, factory: Factory)
    returns (r: Result<Forked>)
    modifies host
    ensures var seed := factory(SnippetCode(code), false, take, excl);
      && (seed.Raise? ==> r == Raise(seed.exc) && unchanged(host))
      && (seed.Ok? ==> host.runs == old(host.runs) + [Background(BackgroundCommand(unique, false))])
      && (seed.Ok? ==> host.files == old(host.files)[EggPath(unique) := seed.value.code])
      && (seed.Ok? ==>
            var tries := Retry(host.files, host.produced, PidPath(unique), old(host.fetches), 10);
            var pid := PidOf(tries.0);
            && host.fetches == old(host.fetches) + tries.1
            && (pid.Raise? ==> r == Raise(pid.exc))
            && (pid.Ok? ==> r.Ok? && r.value.pid == pid.value))
    ensures r.Ok? ==> fresh(r.value) && r.value.host == host && r.value.unique == unique
  {
    var seed := factory(SnippetCode(code), false, take, excl);
    if seed.Raise? {
      return Raise(seed.exc);
    }
    ExecuteInBackground(host, seed.value, unique, false);
    r := Fork(host, unique);
  }

  /**
   * `forkCallable`: upload the arguments, pack the callable, start it with
   * input in the background, and read its pid; a keyword that clashes with a
   * bound parameter raises before the host is touched.
   */
  method ForkCallable(host: Host, unique: string, moduleName: string, name: string, file: string,
                      args: seq<PyValue>, kwargs: Kwargs, cache: Option<Maker>, factory: Factory,
                      pickle: (seq<PyValue>, Kwargs) -> string)
    returns (r: Result<Forked>)
    modifies host
    ensures !(kwargs.Keys !! BoundNames) ==> r == Raise(MultipleValues) && unchanged(host)
    ensures kwargs.Keys !! BoundNames ==>
      var p := Prepare(moduleName, name, file, kwargs);
      var seed := IntendedSeed(cache, p, factory);
      var uploaded := old(host.files)[ArgsPath(unique) := pickle(args, p.rest)];
      && (seed.Raise? ==>
            r == Raise(seed.exc) && host.files == uploaded
            && host.runs == old(host.runs) && host.fetches == old(host.fetches))
      && (seed.Ok? ==> host.runs == old(host.runs) + [Background(BackgroundCommand(unique, true))])
      && (seed.Ok? ==> host.files == uploaded[EggPath(unique) := seed.value.code])
      && (seed.Ok? ==>
            var tries := Retry(host.files, host.produced, PidPath(unique), old(host.fetches), 10);
            var pid := PidOf(tries.0);
            && host.fetches == old(host.fetches) + tries.1
            && (pid.Raise? ==> r == Raise(pid.exc))
            && (pid.Ok? ==> r.Ok? && r.value.pid == pid.value))
    ensures r.Ok? ==> fresh(r.value) && r.value.host == host && r.value.unique == unique
  {
    var seed := GenerateSeed(host, unique, moduleName, name, file, args, kwargs, cache, factory, pickle);
    if seed.Raise? {
      return Raise(seed.exc);
    }
    ExecuteInBackground(host, seed.value, unique, true);
    r := Fork(host, unique);
  }

  // ---------------------------------------------------------------- forked job

  /**
   * Reading a file that may not be there yet, retrying after each failure
   * while `left` retries remain: what the last read gave, and how many reads
   * were made. Reads start at read number `start`.
   */
  function Retry(files: map<string, string>, produced: (string, nat) -> Result<string>, path: string, start: nat, left: nat)
    : (r: (Result<string>, nat))
    decreases left
  {
    var got := ReadFrom(files, produced, path, start);
    if got.Ok? || left == 0 then (got, 1)
    else
      var (o, n) := Retry(files, produced, path, start + 1, left - 1);
      (o, n + 1)
  }

  /**
   * At most `left + 1` reads are made. A success is the first read that
   * succeeded, every read before it having failed; a failure means all
   * `left + 1` reads failed and is what the last of them raised.
   */
  lemma {:induction false} RetryOutcome(files: map<string, string>, produced: (string, nat) -> Result<string>, path: string, start: nat, left: nat)
    ensures var (o, n) := Retry(files, produced, path, start, left);
      && 1 <= n <= left + 1
      && o == ReadFrom(files, produced, path, start + n - 1)
      && (forall k | start <= k < start + n - 1 :: ReadFrom(files, produced, path, k).Raise?)
      && (o.Raise? ==> n == left + 1)
    decreases left
  {
    if !(ReadFrom(files, produced, path, start).Ok? || left == 0) {
      RetryOutcome(files, produced, path, start + 1, left - 1);
    }
  }

  /** The shell probe that prints DEAD when process `pid` is gone. */
  function AliveProbe(pid: string): string { "test -d /proc/" + pid + " || echo DEAD" }
  /** The shell probe that prints FAILED when the job left no result file. */
  function ResultProbe(unique: string): string { "test -e " + ResultPath(unique) + " || echo FAILED" }

  /** `poll`'s answer from the two probes' outputs: None while running, then whether a result was left. */
  function PollOutcome(alive: Result<string>, result: Result<string>): Result<Option<bool>> {
    match alive
    case Raise(e) => Raise(e)
    case Ok(out) =>
      if !Contains(out, "DEAD") then Ok(None)
      else
        match result
        case Raise(e) => Raise(e)
        case Ok(out2) => Ok(Some(!Contains(out2, "FAILED")))
  }

  /**
   * The three answers of `poll`: None exactly when the process probe does not
   * report DEAD; False exactly when it does and the result probe reports
   * FAILED; True exactly when it does and the result probe does not.
   */
  lemma PollAnswers(alive: string, result: Result<string>)
    ensures PollOutcome(Ok(alive), result) == Ok(None) <==> !Contains(alive, "DEAD")
    ensures PollOutcome(Ok(alive), result) == Ok(Some(false)) <==> Contains(alive, "DEAD") && result.Ok? && Contains(result.value, "FAILED")
    ensures PollOutcome(Ok(alive), result) == Ok(Some(true)) <==> Contains(alive, "DEAD") && result.Ok? && !Contains(result.value, "FAILED")
  {
  }

  /** The signal `kill` sends: `str` of the one given, TERM when it is None. */
  function SignalName(signal: PyValue): (r: string)
    ensures signal == PyNone ==> r == "TERM"
    ensures signal != PyNone ==> r == Str(signal)
  {
    Str(if signal == PyNone then PyStr("TERM") else signal)
  }

  /** `kill -<signal> <pid>`. */
  function KillCommand(signal: PyValue, pid: string): string {
    "kill -" + SignalName(signal) + " " + pid
  }

  lemma KillShape(x: string, pid: string)
    ensures "kill -" + x + " " + pid == "kill" + [' '] + ("-" + x + [' '] + pid)
    ensures ' ' !in "kill"
  {
  }

  /** The kill command is three words: `kill`, the signal after a dash, and the pid. */
  lemma KillWords(signal: PyValue, pid: string)
    requires ' ' !in pid && ' ' !in SignalName(signal)
    ensures Split(KillCommand(signal, pid), ' ') == ["kill", "-" + SignalName(signal), pid]
  {
    var x := SignalName(signal);
    KillShape(x, pid);
    SplitStep("kill", "-" + x + [' '] + pid, ' ');
    assert ' ' !in "-" + x;
    SplitStep("-" + x, pid, ' ');
    assert Split(pid, ' ') == [pid];
  }

  /** The handle of a job started in the background. */
  class Forked {
    const host: Host
    const unique: string
    /** The job's pid as its pid file gave it, stripped. */
    const pid: string

    constructor(host: Host, unique: string, pid: string)
      ensures this.host == host && this.unique == unique && this.pid == pid
    {
      this.host := host;
      this.unique := unique;
      this.pid := pid;
    }

    /** `poll`: probe the process; only when it is dead, probe for the result file. */
    method Poll() returns (r: Result<Option<bool>>)
      modifies host
      ensures r == PollOutcome(host.answer(AliveProbe(pid)), host.answer(ResultProbe(unique)))
      ensures var a := host.answer(AliveProbe(pid));
        host.runs == old(host.runs) + [Script(AliveProbe(pid), map[])] +
          (if a.Ok? && Contains(a.value, "DEAD") then [Script(ResultProbe(unique), map[])] else [])
      ensures host.files == old(host.files) && host.fetches == old(host.fetches)
    {
      var alive := host.RunScript(AliveProbe(pid), map[]);
      if alive.Raise? {
        return Raise(alive.exc);
      }
      if !Contains(alive.value, "DEAD") {
        return Ok(None);
      }
      var result := host.RunScript(ResultProbe(unique), map[]);
      if result.Raise? {
        return Raise(result.exc);
      }
      r := Ok(Some(!Contains(result.value, "FAILED")));
    }

    /** `result`: the pickled result the job left (unpickling is not modelled). */
    method Result() returns (r: Result<string>)
      modifies host
      ensures r == old(host.ReadAt(ResultPath(unique), host.fetches))
      ensures host.fetches == old(host.fetches) + 1
      ensures host.files == old(host.files) && host.runs == old(host.runs)
    {
      r := host.GetContents(ResultPath(unique));
    }

    /** `output`: everything the job printed. */
    method Output() returns (r: Result<string>)
      modifies host
      ensures r == old(host.ReadAt(OutputPath(unique), host.fetches))
      ensures host.fetches == old(host.fetches) + 1
      ensures host.files == old(host.files) && host.runs == old(host.runs)
    {
      r := host.GetContents(OutputPath(unique));
    }

    /** `kill`: signal the job, with TERM when no signal is given. */
    method Kill(signal: PyValue) returns (r: Result<()>)
      modifies host
      ensures host.runs == old(host.runs) + [Script(KillCommand(signal, pid), map[])]
      ensures host.files == old(host.files) && host.fetches == old(host.fetches)
      ensures r.Raise? <==> host.answer(KillCommand(signal, pid)).Raise?
    {
      var out := host.RunScript(KillCommand(signal, pid), map[]);
      r := if out.Raise? then Raise(out.exc) else Ok(());
    }
  }

  /** The pid a read of the pid file gives: its text stripped of whitespace, or what the read raised. */
  function PidOf(read: Result<string>): (r: Result<string>)
    ensures read.Raise? ==> r == read
    ensures read.Ok? ==> r.Ok? && r.value == Strip(read.value, Whitespace)
  {
    if read.Ok? then Ok(Strip(read.value, Whitespace)) else read
  }

  /** `_getPid`: ten reads of the pid file whose failures are swallowed, then one whose failure escapes. */
  method GetPid(host: Host, unique: string) returns (r: Result<string>)
    modifies host
    ensures r == PidOf(Retry(old(host.files), host.produced, PidPath(unique), old(host.fetches), 10).0)
    ensures host.fetches == old(host.fetches) + Retry(old(host.files), host.produced, PidPath(unique), old(host.fetches), 10).1
    ensures host.files == old(host.files) && host.runs == old(host.runs)
  {
    var got := ReadRetrying(host, PidPath(unique), 10);
    r := PidOf(got);
  }

  /** The loop of `_getPid`: read `path`, swallowing the first `retries` failures. */
  method ReadRetrying(host: Host, path: string, retries: nat) returns (r: Result<string>)
    modifies host
    ensures r == Retry(old(host.files), host.produced, path, old(host.fetches), retries).0
    ensures host.fetches == old(host.fetches) + Retry(old(host.files), host.produced, path, old(host.fetches), retries).1
    ensures host.files == old(host.files) && host.runs == old(host.runs)
  {
    ghost var full := Retry(host.files, host.produced, path, host.fetches, retries);
    ghost var start := host.fetches;
    var i := 0;
    while i < retries
      invariant 0 <= i <= retries
      invariant host.files == old(host.files) && host.runs == old(host.runs)
      invariant host.fetches == start + i
      invariant full.0 == Retry(host.files, host.produced, path, host.fetches, retries - i).0
      invariant full.1 == Retry(host.files, host.produced, path, host.fetches, retries - i).1 + i
    {
      ghost var k := host.fetches;
      var got := host.GetContents(path);
      assert got == ReadFrom(host.files, host.produced, path, k);
      if got.Ok? {
        RetryHit(host.files, host.produced, path, k, retries - i);
        return got;
      }
      RetryStep(host.files, host.produced, path, k, retries - i);
      i := i + 1;
    }
    ghost var k := host.fetches;
    r := host.GetContents(path);
    assert r == ReadFrom(host.files, host.produced, path, k);
    RetryHit(host.files, host.produced, path, k, 0);
  }

  /** A read that succeeds, or the last one allowed, ends the retries. */
  lemma RetryHit(files: map<string, string>, produced: (string, nat) -> Result<string>, path: string, k: nat, left: nat)
    requires left == 0 || ReadFrom(files, produced, path, k).Ok?
    ensures Retry(files, produced, path, k, left) == (ReadFrom(files, produced, path, k), 1)
  {
  }

  /** A failed read with retries left costs one read and leaves the rest to the next. */
  lemma RetryStep(files: map<string, string>, produced: (string, nat) -> Result<string>, path: string, k: nat, left: nat)
    requires left > 0 && ReadFrom(files, produced, path, k).Raise?
    ensures Retry(files, produced, path, k, left).0 == Retry(files, produced, path, k + 1, left - 1).0
    ensures Retry(files, produced, path, k, left).1 == Retry(files, produced, path, k + 1, left - 1).1 + 1
  {
  }

  /** `_Forked(host, unique)`: read the job's pid, or raise what the last read raised. */
  method Fork(host: Host, unique: string) returns (r: Result<Forked>)
    modifies host
    ensures var pid := PidOf(Retry(old(host.files), host.produced, PidPath(unique), old(host.fetches), 10).0);
      && (pid.Raise? ==> r == Raise(pid.exc))
      && (pid.Ok? ==> r.Ok? && r.value.pid == pid.value)
    ensures host.fetches == old(host.fetches) + Retry(old(host.files), host.produced, PidPath(unique), old(host.fetches), 10).1
    ensures r.Ok? ==> fresh(r.value) && r.value.host == host && r.value.unique == unique
    ensures host.files == old(host.files) && host.runs == old(host.runs)
  {
    var pid := GetPid(host, unique);
    if pid.Raise? {
      return Raise(pid.exc);
    }
    var job := new Forked(host, unique, pid.value);
    r := Ok(job);
  }

  /** A pid file that the background shell writes only once `before` reads have been made. */
  function LateFile(path: string, contents: string, before: nat): (string, nat) -> Result<string> {
    (p: string, k: nat) => if p == path && k >= before then Ok(contents) else Raise(IOError(p))
  }

  /** A file written before the third read is read three times, the first two failing. */
  lemma ReadOnThirdTry(path: string, contents: string)
    ensures Retry(map[], LateFile(path, contents, 2), path, 0, 10) == (Ok(contents), 3)
  {
    var f := LateFile(path, contents, 2);
    assert ReadFrom(map[], f, path, 0) == Raise(IOError(path));
    assert ReadFrom(map[], f, path, 1) == Raise(IOError(path));
    assert ReadFrom(map[], f, path, 2) == Ok(contents);
    assert Retry(map[], f, path, 2, 8) == (Ok(contents), 1);
  }

  /** A file never written makes `_getPid` raise after eleven reads. */
  lemma NeverWritten(path: string)
    ensures Retry(map[], (p: string, k: nat) => Raise(IOError(p)), path, 0, 10) == (Raise(IOError(path)), 11)
  {
    RetryOutcome(map[], (p: string, k: nat) => Raise(IOError(p)), path, 0, 10);
  }

  /**
   * A job whose shell writes pid `n` to its pid file only after two reads:
   * the handle's pid is `n` with the newline stripped, read on the third try,
   * and a poll while the process lives runs one probe and answers None.
   */
  method ForkLateWriter(unique: string, n: nat) returns (pid: string, readCount: nat, running: Result<Option<bool>>, probes: nat)
    ensures pid == NatToDecimal(n) && readCount == 3
    ensures running == Ok(None) && probes == 1
  {
    var host := new Host(LateFile(PidPath(unique), NatToDecimal(n) + "\n", 2), (text: string) => Ok(""));
    ReadOnThirdTry(PidPath(unique), NatToDecimal(n) + "\n");
    var job := Fork(host, unique);
    StripDecimal(NatToDecimal(n), "\n");
    pid := job.value.pid;
    readCount := host.fetches;
    running := job.value.Poll();
    probes := |host.runs|;
  }

  /** Once the process is reported dead and no probe reports FAILED, a poll runs both probes and answers True. */
  method PollFinished(unique: string, pid: string) returns (finished: Result<Option<bool>>, probes: nat)
    ensures finished == Ok(Some(true)) && probes == 2
  {
    var host := new Host((p: string, k: nat) => Raise(IOError(p)),
                         (text: string) => if text == AliveProbe(pid) then Ok("DEAD\n") else Ok(""));
    var job := new Forked(host, unique, pid);
    assert OccursAt("DEAD\n", "DEAD", 0);
    finished := job.Poll();
    probes := |host.runs|;
  }
}
