/**
 * The in-memory cache engine: a shared dictionary from a key's `hash`
 * attribute to the seed's code, behind one process-wide mutex that ignores
 * the key it is asked to lock.
 */
module Memorycache {
  import opened Py
  import opened Strs
  import opened SeedEntry

  /**
   * A cache key as the layered engine receives it: its text, which the file
   * engine encodes into a file name, and the `hash` attribute that the
   * memory engine indexes by.
   */
  datatype Key = Key(text: ByteString, hash: int)

  class MemoryCache {
    var cache: map<int, string>
    var locked: bool

    /** A fresh engine: an empty shared dictionary and a free mutex. */
    constructor()
      ensures cache == map[] && !locked
    {
      cache := map[];
      locked := false;
    }

    /** The slot that `key` reads: the one of its `hash`. */
    function Slot(key: Key): Option<string>
      reads this
    {
      if key.hash in cache then Some(cache[key.hash]) else None
    }

    /**
     * Entering `lock(key)`: `acquire(timeout=60)`. The key plays no part.
     * When another holder keeps the mutex the acquire gives up after its
     * timeout and returns False, and the guarded block runs anyway.
     */
    method Acquire(key: Key) returns (acquired: bool)
      modifies this
      ensures acquired == !old(locked)
      ensures locked && cache == old(cache)
    {
      acquired := !locked;
      locked := true;
    }

    /** Leaving `lock(key)` by any exit: the `finally` releases the mutex. */
    method Release(key: Key)
      modifies this
      ensures !locked && cache == old(cache)
    {
      locked := false;
    }

    /** `get(key)`: `_cache.get(key.hash, None)`. */
    method Get(key: Key) returns (r: Option<string>)
      ensures r.Some? <==> key.hash in cache
      ensures r.Some? ==> r.value == cache[key.hash]
    {
      if key.hash in cache {
        r := Some(cache[key.hash]);
      } else {
        r := None;
      }
    }

    /** `install(key, entry)`: only the code is kept, in the slot of `key.hash`. */
    method Install(key: Key, e: Entry)
      modifies this
      ensures cache == old(cache)[key.hash := e.code]
      ensures locked == old(locked)
    {
      cache := cache[key.hash := e.code];
    }
  }

  /**
   * A fresh engine: a hash never installed is a miss; after `install(k, e)`,
   * `get` of any key with the same hash gives `e['code']`, and a key with
   * another hash still misses.
   */
  method InstallThenGet(k: Key, e: Entry, probe: Key) returns (before: Option<string>, after: Option<string>)
    ensures before == None
    ensures probe.hash == k.hash ==> after == Some(e.code)
    ensures probe.hash != k.hash ==> after == None
  {
    var m := new MemoryCache();
    before := m.Get(k);
    var _ := m.Acquire(k);
    m.Install(k, e);
    m.Release(k);
    after := m.Get(probe);
  }

  /** One mutex for all keys: while one key's block holds it, entering another key's block times out. */
  method OneMutexForAllKeys(k1: Key, k2: Key) returns (first: bool, second: bool, heldAfter: bool)
    ensures first && !second && !heldAfter
  {
    var m := new MemoryCache();
    first := m.Acquire(k1);
    second := m.Acquire(k2);
    m.Release(k2);
    heldAfter := m.locked;
  }
}
