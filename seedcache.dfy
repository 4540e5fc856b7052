/**
 * Get-or-build orchestration of seeds. Under the engine's lock for a key, a
 * cached seed is returned; a miss builds the seed with dependency
 * generation on and installs it exactly once. Any failure on that path
 * falls back to a plain build without dependencies; without an engine, or
 * when the pack arguments ask for `noCache`, the plain build is all there is.
 *
 * The engine is any object with `lock`, `get` and `install` (the file
 * engine, the layered engine, or a test double). Here it is `Engine`: a
 * store from key to code, the trace of the calls made on it, and the set of
 * operations that raise. The creator is a function from the code, the
 * dependency flag and the pack arguments to the built entry or an exception.
 */
module Seedcache {
  import opened Py
  import opened Values
  import opened SeedEntry

  /** A call made on an engine. */
  datatype Event = Locked(key: string) | Got(key: string) | Installed(key: string, code: string) | Unlocked(key: string)

  /** The engine operations a test double may make raise. */
  datatype Op = LockOp | GetOp | InstallOp

  /** The keys whose lock is held after `trace`. */
  function Held(trace: seq<Event>): set<string> {
    if trace == [] then {}
    else
      var h, e := Held(trace[..|trace| - 1]), trace[|trace| - 1];
      if e.Locked? then h + {e.key} else if e.Unlocked? then h - {e.key} else h
  }

  /** Every `get` and `install` happens while the lock of its key is held. */
  predicate WellLocked(trace: seq<Event>) {
    forall i | 0 <= i < |trace| :: (trace[i].Got? || trace[i].Installed?) ==> trace[i].key in Held(trace[..i])
  }

  /** The number of installs in a trace. */
  function Installs(trace: seq<Event>): nat {
    if trace == [] then 0
    else Installs(trace[..|trace| - 1]) + (if trace[|trace| - 1].Installed? then 1 else 0)
  }

  /** An event that respects the locking discipline extends a well-locked trace to a well-locked trace. */
  lemma Extend(t: seq<Event>, e: Event)
    requires WellLocked(t)
    requires (e.Got? || e.Installed?) ==> e.key in Held(t)
    ensures WellLocked(t + [e])
    ensures Held(t + [e]) == if e.Locked? then Held(t) + {e.key} else if e.Unlocked? then Held(t) - {e.key} else Held(t)
    ensures Installs(t + [e]) == Installs(t) + if e.Installed? then 1 else 0
  {
    var t2 := t + [e];
    assert t2[..|t2| - 1] == t;
    forall i | 0 <= i < |t|
      ensures t2[..i] == t[..i]
    {
    }
  }

  /** Calls that are each a `get` or an `install` of `key`. */
  predicate OnKey(calls: seq<Event>, key: string) {
    forall i | 0 <= i < |calls| :: (calls[i].Got? || calls[i].Installed?) && calls[i].key == key
  }

  /** Dropping the last call keeps the calls on `key`, and the last one is on `key` too. */
  lemma OnKeyInit(calls: seq<Event>, key: string)
    requires OnKey(calls, key) && calls != []
    ensures OnKey(calls[..|calls| - 1], key)
    ensures var e := calls[|calls| - 1]; (e.Got? || e.Installed?) && e.key == key
  {
  }

  /**
   * A block that locks `key`, makes calls on `key` only, and unlocks it
   * keeps a trace with no held lock well locked, adds the block's installs,
   * and leaves no lock held.
   */
  lemma LockedBlock(t: seq<Event>, key: string, calls: seq<Event>)
    requires WellLocked(t) && Held(t) == {}
    requires OnKey(calls, key)
    ensures WellLocked(t + [Locked(key)] + calls + [Unlocked(key)])
    ensures Held(t + [Locked(key)] + calls + [Unlocked(key)]) == {}
    ensures Installs(t + [Locked(key)] + calls + [Unlocked(key)]) == Installs(t) + Installs(calls)
  {
    InsideBlock(t, key, calls);
    Extend(t + [Locked(key)] + calls, Unlocked(key));
  }

  /** Inside a block on `key`: the trace is well locked and exactly `key` is held. */
  lemma {:induction false} InsideBlock(t: seq<Event>, key: string, calls: seq<Event>)
    requires WellLocked(t) && Held(t) == {}
    requires OnKey(calls, key)
    ensures WellLocked(t + [Locked(key)] + calls)
    ensures Held(t + [Locked(key)] + calls) == {key}
    ensures Installs(t + [Locked(key)] + calls) == Installs(t) + Installs(calls)
    decreases |calls|
  {
    if calls == [] {
      Extend(t, Locked(key));
      assert t + [Locked(key)] + calls == t + [Locked(key)];
    } else {
      var init, last := calls[..|calls| - 1], calls[|calls| - 1];
      OnKeyInit(calls, key);
      InsideBlock(t, key, init);
      var u := t + [Locked(key)] + init;
      Extend(u, last);
      InstallsLast(calls);
      Snoc(t + [Locked(key)], calls);
    }
  }

  /** Putting back the last element after its prefix gives the whole sequence again. */
  lemma Snoc<T>(a: seq<T>, b: seq<T>)
    requires b != []
    ensures a + b[..|b| - 1] + [b[|b| - 1]] == a + b
  {
  }

  /** The installs of a non-empty trace: those before its last event, and the last one. */
  lemma InstallsLast(calls: seq<Event>)
    requires calls != []
    ensures Installs(calls) == Installs(calls[..|calls| - 1]) + if calls[|calls| - 1].Installed? then 1 else 0
  {
  }

  /** The exception an engine raises when `op` is made to fail. */
  function Fault(op: Op): Exception {
    match op
    case LockOp => Raised("engine lock failed")
    case GetOp => Raised("engine get failed")
    case InstallOp => Raised("engine install failed")
  }

  class Engine {
    var store: map<string, string>
    var trace: seq<Event>
    const failing: set<Op>

    constructor(store: map<string, string>, failing: set<Op>)
      ensures this.store == store && this.failing == failing && trace == []
    {
      this.store := store;
      this.failing := failing;
      trace := [];
    }

    /** Enter `lock(key)`. */
    method Lock(key: string) returns (r: Result<()>)
      modifies this
      ensures LockOp in failing ==> r == Raise(Fault(LockOp)) && trace == old(trace)
      ensures LockOp !in failing ==> r == Ok(()) && trace == old(trace) + [Locked(key)]
      ensures store == old(store)
    {
      if LockOp in failing {
        return Raise(Fault(LockOp));
      }
      trace := trace + [Locked(key)];
      return Ok(());
    }

    /** `get(key)`: the stored seed or None. */
    method Get(key: string) returns (r: Result<Option<string>>)
      modifies this
      ensures trace == old(trace) + [Got(key)] && store == old(store)
      ensures GetOp in failing ==> r == Raise(Fault(GetOp))
      ensures GetOp !in failing ==> r == Ok(if key in store then Some(store[key]) else None)
    {
      trace := trace + [Got(key)];
      if GetOp in failing {
        return Raise(Fault(GetOp));
      }
      return Ok(if key in store then Some(store[key]) else None);
    }

    /** `install(key, entry)`. */
    method Install(key: string, e: Entry) returns (r: Result<()>)
      modifies this
      ensures trace == old(trace) + [Installed(key, e.code)]
      ensures InstallOp in failing ==> r == Raise(Fault(InstallOp)) && store == old(store)
      ensures InstallOp !in failing ==> r == Ok(()) && store == old(store)[key := e.code]
    {
      trace := trace + [Installed(key, e.code)];
      if InstallOp in failing {
        return Raise(Fault(InstallOp));
      }
      store := store[key := e.code];
      return Ok(());
    }

    /** Leave `lock(key)`, by any exit. */
    method Unlock(key: string)
      modifies this
      ensures trace == old(trace) + [Unlocked(key)] && store == old(store)
    {
      trace := trace + [Unlocked(key)];
    }
  }

  /**
   * `creator(code, generateDependencies=gen, **packArgs)()`: a pack argument
   * that repeats the explicit keyword is a TypeError at the call, before the
   * creator runs.
   */
  function Call(creator: (string, bool, Kwargs) -> Result<Entry>, code: string, gen: bool, packArgs: Kwargs): (r: Result<Entry>)
    ensures !Runs(packArgs) ==> r.Raise? && r.exc.TypeError?
    ensures Runs(packArgs) ==> r == creator(code, gen, packArgs)
  {
    if "generateDependencies" in packArgs then Raise(TypeError("got multiple values for keyword argument 'generateDependencies'"))
    else creator(code, gen, packArgs)
  }

  /** Whether that call reaches the creator. */
  predicate Runs(packArgs: Kwargs) {
    "generateDependencies" !in packArgs
  }

  /** The uncached build: the code of the entry built without dependencies. */
  function Uncached(creator: (string, bool, Kwargs) -> Result<Entry>, code: string, packArgs: Kwargs): (r: Result<string>)
    ensures r.Ok? <==> Call(creator, code, false, packArgs).Ok?
    ensures r.Ok? ==> r.value == Call(creator, code, false, packArgs).value.code
  {
    var d := Call(creator, code, false, packArgs);
    if d.Ok? then Ok(d.value.code) else Raise(d.exc)
  }

  /** `packArgs.get('noCache', False)`, read but left in place. */
  predicate NoCache(packArgs: Kwargs) {
    Truthy(Get(packArgs, "noCache", PyBool(false)))
  }

  /**
   * What one pass of the cached path does: its result, the engine's new
   * store, the calls it makes on the engine and the creator runs.
   */
  datatype Outcome = Outcome(r: Result<string>, store: map<string, string>, events: seq<Event>, built: seq<bool>)

  /** The cached path against an engine holding `store` whose `failing` operations raise. */
  function Cached(creator: (string, bool, Kwargs) -> Result<Entry>, store: map<string, string>, failing: set<Op>,
                  key: string, code: string, packArgs: Kwargs): Outcome
  {
    if LockOp in failing then Outcome(Raise(Fault(LockOp)), store, [], [])
    else if GetOp in failing then Outcome(Raise(Fault(GetOp)), store, [Locked(key), Got(key), Unlocked(key)], [])
    else if key in store then Outcome(Ok(store[key]), store, [Locked(key), Got(key), Unlocked(key)], [])
    else
      var d := Call(creator, code, true, packArgs);
      var built := if Runs(packArgs) then [true] else [];
      if d.Raise? then Outcome(Raise(d.exc), store, [Locked(key), Got(key), Unlocked(key)], built)
      else
        var events := [Locked(key), Got(key), Installed(key, d.value.code), Unlocked(key)];
        if InstallOp in failing then Outcome(Raise(Fault(InstallOp)), store, events, built)
        else Outcome(Ok(d.value.code), store[key := d.value.code], events, built)
  }

  /**
   * The cached path keeps the locking discipline: appended to a well-locked
   * trace with no lock held, its calls leave a well-locked trace with no
   * lock held, and they install at most once.
   */
  lemma CachedKeepsLocking(t: seq<Event>, creator: (string, bool, Kwargs) -> Result<Entry>, store: map<string, string>,
                           failing: set<Op>, key: string, code: string, packArgs: Kwargs)
    requires WellLocked(t) && Held(t) == {}
    ensures var o := Cached(creator, store, failing, key, code, packArgs);
      WellLocked(t + o.events) && Held(t + o.events) == {} && Installs(t + o.events) <= Installs(t) + 1
  {
    var o := Cached(creator, store, failing, key, code, packArgs);
    CachedBlock(creator, store, failing, key, code, packArgs);
    if o.events == [] {
      assert t + o.events == t;
    } else {
      var calls := o.events[1..|o.events| - 1];
      LockedBlock(t, key, calls);
      BlockAssoc(t, key, calls);
    }
  }

  /**
   * The calls of one pass of the cached path: none, or a block on `key`
   * with at most one install inside.
   */
  lemma CachedBlock(creator: (string, bool, Kwargs) -> Result<Entry>, store: map<string, string>,
                    failing: set<Op>, key: string, code: string, packArgs: Kwargs)
    ensures var o := Cached(creator, store, failing, key, code, packArgs);
      o.events == [] ||
      (|o.events| >= 2 && o.events == [Locked(key)] + o.events[1..|o.events| - 1] + [Unlocked(key)]
       && OnKey(o.events[1..|o.events| - 1], key) && Installs(o.events[1..|o.events| - 1]) <= 1)
  {
    var o := Cached(creator, store, failing, key, code, packArgs);
    if LockOp in failing {
    } else if GetOp in failing || key in store || Call(creator, code, true, packArgs).Raise? {
      GetBlock(o.events, key, [Got(key)]);
      InstallsOfOneGet(key);
    } else {
      var c := Call(creator, code, true, packArgs).value.code;
      GetBlock(o.events, key, [Got(key), Installed(key, c)]);
      InstallsOfGetThenInstall(key, c);
    }
  }

  /** A block around `calls` is a trace whose inner part is those calls. */
  lemma GetBlock(events: seq<Event>, key: string, calls: seq<Event>)
    requires events == [Locked(key)] + calls + [Unlocked(key)]
    requires OnKey(calls, key)
    ensures |events| >= 2 && events[1..|events| - 1] == calls
    ensures events == [Locked(key)] + events[1..|events| - 1] + [Unlocked(key)]
    ensures OnKey(events[1..|events| - 1], key)
  {
    assert events[1..|events| - 1] == calls;
  }

  lemma Append3<T>(s: seq<T>, a: T, b: T, c: T)
    ensures s + [a] + [b] + [c] == s + [a, b, c]
  {
  }

  lemma Append4<T>(s: seq<T>, a: T, b: T, c: T, d: T)
    ensures s + [a] + [b] + [c] + [d] == s + [a, b, c, d]
  {
  }

  lemma BlockAssoc(t: seq<Event>, key: string, calls: seq<Event>)
    ensures t + ([Locked(key)] + calls + [Unlocked(key)]) == t + [Locked(key)] + calls + [Unlocked(key)]
  {
  }

  lemma InstallsOfOneGet(key: string)
    ensures Installs([Got(key)]) == 0
  {
    assert [Got(key)][..0] == [];
  }

  lemma InstallsOfGetThenInstall(key: string, c: string)
    ensures Installs([Got(key), Installed(key, c)]) == 1
  {
    assert [Got(key), Installed(key, c)][..1] == [Got(key)];
    InstallsOfOneGet(key);
  }

  /** A hit on a healthy engine returns the stored seed, builds nothing and installs nothing. */
  lemma CachedHit(creator: (string, bool, Kwargs) -> Result<Entry>, store: map<string, string>, key: string, code: string, packArgs: Kwargs)
    requires key in store
    ensures var o := Cached(creator, store, {}, key, code, packArgs);
      o.r == Ok(store[key]) && o.store == store && o.built == [] && Installs(o.events) == 0
  {
    InstallsOfBlock(key, [Got(key)]);
    InstallsOfOneGet(key);
    assert Cached(creator, store, {}, key, code, packArgs).events == [Locked(key)] + [Got(key)] + [Unlocked(key)];
  }

  /**
   * A miss on a healthy engine runs the creator once with dependencies and
   * installs its seed under the key, exactly once.
   */
  lemma CachedMiss(creator: (string, bool, Kwargs) -> Result<Entry>, store: map<string, string>, key: string, code: string, packArgs: Kwargs)
    requires key !in store && Runs(packArgs) && creator(code, true, packArgs).Ok?
    ensures var o := Cached(creator, store, {}, key, code, packArgs);
      var c := creator(code, true, packArgs).value.code;
      o.r == Ok(c) && o.store == store[key := c] && o.built == [true] && Installs(o.events) == 1
  {
    var c := creator(code, true, packArgs).value.code;
    InstallsOfBlock(key, [Got(key), Installed(key, c)]);
    InstallsOfGetThenInstall(key, c);
    assert Cached(creator, store, {}, key, code, packArgs).events == [Locked(key)] + [Got(key), Installed(key, c)] + [Unlocked(key)];
  }

  /** Locking and unlocking install nothing. */
  lemma InstallsOfBlock(key: string, calls: seq<Event>)
    ensures Installs([Locked(key)] + calls + [Unlocked(key)]) == Installs(calls)
  {
    var s := [Locked(key)] + calls + [Unlocked(key)];
    assert s[..|s| - 1] == [Locked(key)] + calls;
    InstallsAppend([Locked(key)], calls);
    assert [Locked(key)][..0] == [];
  }

  class SeedCache {
    const engine: Engine?
    const creator: (string, bool, Kwargs) -> Result<Entry>
    /** The `generateDependencies` flag of every creator run, in order. */
    var builds: seq<bool>

    constructor(engine: Engine?, creator: (string, bool, Kwargs) -> Result<Entry>)
      ensures this.engine == engine && this.creator == creator && builds == []
    {
      this.engine := engine;
      this.creator := creator;
      builds := [];
    }

    /** Run the creator, recording the run. */
    method Build(code: string, gen: bool, packArgs: Kwargs) returns (r: Result<Entry>)
      modifies this
      ensures r == Call(creator, code, gen, packArgs)
      ensures builds == old(builds) + if Runs(packArgs) then [gen] else []
    {
      r := Call(creator, code, gen, packArgs);
      if Runs(packArgs) {
        builds := builds + [gen];
      }
    }

    /**
     * `_createSeedFromCache`: under the key's lock, a hit is returned as is;
     * a miss is built with dependencies and installed. Every exception
     * propagates, with the lock released.
     */
    method CreateSeedFromCache(key: string, code: string, packArgs: Kwargs) returns (r: Result<string>)
      requires engine != null
      modifies this, engine
      ensures var o := Cached(creator, old(engine.store), engine.failing, key, code, packArgs);
        r == o.r && engine.store == o.store && engine.trace == old(engine.trace) + o.events
        && builds == old(builds) + o.built
    {
      ghost var t0 := engine.trace;
      var locked := engine.Lock(key);
      if locked.Raise? {
        return Raise(locked.exc);
      }
      var seed := engine.Get(key);
      if seed.Raise? || seed.value.Some? {
        engine.Unlock(key);
        Append3(t0, Locked(key), Got(key), Unlocked(key));
        return if seed.Raise? then Raise(seed.exc) else Ok(seed.value.value);
      }
      var d := Build(code, true, packArgs);
      if d.Raise? {
        engine.Unlock(key);
        Append3(t0, Locked(key), Got(key), Unlocked(key));
        return Raise(d.exc);
      }
      var installed := engine.Install(key, d.value);
      engine.Unlock(key);
      Append4(t0, Locked(key), Got(key), Installed(key, d.value.code), Unlocked(key));
      if installed.Raise? {
        return Raise(installed.exc);
      }
      return Ok(d.value.code);
    }

    /**
     * `makeSeed(key, code, **packArgs)`: the cached path when there is an
     * engine and `noCache` is falsy, falling back to the uncached build on
     * any exception from it; the uncached build alone otherwise.
     */
    method MakeSeed(key: string, code: string, packArgs: Kwargs) returns (r: Result<string>)
      modifies this, engine
      // no engine or noCache: the uncached build, and the engine is not touched
      ensures engine == null || NoCache(packArgs) ==>
        r == Uncached(creator, code, packArgs) && builds == old(builds) + (if Runs(packArgs) then [false] else [])
      ensures engine != null && NoCache(packArgs) ==>
        engine.trace == old(engine.trace) && engine.store == old(engine.store)
      // otherwise the cached path, and the uncached build when that raised
      ensures engine != null && !NoCache(packArgs) ==>
        var o := Cached(creator, old(engine.store), engine.failing, key, code, packArgs);
        engine.store == o.store && engine.trace == old(engine.trace) + o.events
        && (o.r.Ok? ==> r == o.r && builds == old(builds) + o.built)
        && (o.r.Raise? ==> r == Uncached(creator, code, packArgs)
                           && builds == old(builds) + o.built + (if Runs(packArgs) then [false] else []))
      // only the uncached build lets an exception out
      ensures r.Raise? ==> r == Uncached(creator, code, packArgs)
    {
      if engine == null || NoCache(packArgs) {
        var d := Build(code, false, packArgs);
        return if d.Ok? then Ok(d.value.code) else Raise(d.exc);
      }
      r := CreateSeedFromCache(key, code, packArgs);
      if r.Raise? {
        var d := Build(code, false, packArgs);
        r := if d.Ok? then Ok(d.value.code) else Raise(d.exc);
      }
    }
  }

  /**
   * Two successive makes of one key against an empty, healthy engine: the
   * first builds with dependencies and installs, the second is a hit; one
   * install and one creator run in all, and the trace stays well locked.
   */
  method TwoMakesOneInstall(creator: (string, bool, Kwargs) -> Result<Entry>, key: string, code: string, packArgs: Kwargs)
    returns (first: Result<string>, second: Result<string>, installs: nat, builds: seq<bool>, wellLocked: bool)
    requires !NoCache(packArgs) && Runs(packArgs) && creator(code, true, packArgs).Ok?
    ensures first == second == Ok(creator(code, true, packArgs).value.code)
    ensures installs == 1 && builds == [true] && wellLocked
  {
    var engine := new Engine(map[], {});
    var cache := new SeedCache(engine, creator);
    CachedMiss(creator, map[], key, code, packArgs);
    CachedKeepsLocking([], creator, map[], {}, key, code, packArgs);
    first := cache.MakeSeed(key, code, packArgs);
    var t1, s1 := engine.trace, engine.store;
    assert [] + t1 == t1;
    CachedHit(creator, s1, key, code, packArgs);
    CachedKeepsLocking(t1, creator, s1, {}, key, code, packArgs);
    second := cache.MakeSeed(key, code, packArgs);
    InstallsAppend(t1, Cached(creator, s1, {}, key, code, packArgs).events);
    installs := Installs(engine.trace);
    builds := cache.builds;
    wellLocked := WellLocked(engine.trace) && Held(engine.trace) == {};
  }

  /** The installs of a concatenation add up. */
  lemma {:induction false} InstallsAppend(a: seq<Event>, b: seq<Event>)
    ensures Installs(a + b) == Installs(a) + Installs(b)
    decreases |b|
  {
    if b == [] {
      assert a + b == a;
    } else {
      var init := b[..|b| - 1];
      InstallsAppend(a, init);
      assert (a + b)[..|a + b| - 1] == a + init;
    }
  }

  /** An engine with one broken operation still yields the uncached build, and stores nothing. */
  method BrokenEngineFallsBack(creator: (string, bool, Kwargs) -> Result<Entry>, key: string, code: string, packArgs: Kwargs, broken: Op)
    returns (r: Result<string>, stored: map<string, string>)
    requires !NoCache(packArgs) && Runs(packArgs) && creator(code, false, packArgs).Ok?
    ensures r == Ok(creator(code, false, packArgs).value.code)
    ensures stored == map[]
  {
    var engine := new Engine(map[], {broken});
    var cache := new SeedCache(engine, creator);
    r := cache.MakeSeed(key, code, packArgs);
    stored := engine.store;
  }

  /** With `noCache` set the engine is never called, even when it holds the key. */
  method NoCacheBypasses(creator: (string, bool, Kwargs) -> Result<Entry>, key: string, code: string, packArgs: Kwargs, cached: string)
    returns (r: Result<string>, calls: seq<Event>, builds: seq<bool>)
    requires NoCache(packArgs) && Runs(packArgs)
    ensures r == Uncached(creator, code, packArgs) && calls == [] && builds == [false]
  {
    var engine := new Engine(map[key := cached], {});
    var cache := new SeedCache(engine, creator);
    r := cache.MakeSeed(key, code, packArgs);
    calls := engine.trace;
    builds := cache.builds;
  }
}
