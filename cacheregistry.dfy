/**
 * The engine registry: a module-level dictionary from engine name to a
 * creator, filled by `register` and consulted by `create`. A creator is a
 * function of no arguments that returns what it builds or raises.
 */
module Cacheregistry {
  import opened Py

  class Registry<T> {
    var entries: map<string, () -> Result<T>>

    /** The registry as the module starts: `_registry = {}`. */
    constructor()
      ensures entries == map[]
    {
      entries := map[];
    }

    /** `register(name, creator)`: the latest creator for a name replaces any earlier one. */
    method Register(name: string, creator: () -> Result<T>)
      modifies this
      ensures entries == old(entries)[name := creator]
    {
      entries := entries[name := creator];
    }

    /**
     * `create(name)`: None for no name, without a lookup; a KeyError for a
     * name never registered; otherwise whatever calling the creator gives,
     * its exception included.
     */
    method Create(name: Option<string>) returns (r: Result<Option<T>>)
      ensures name.None? ==> r == Ok(None)
      ensures name.Some? && name.value !in entries ==> r == Raise(KeyError(name.value))
      ensures name.Some? && name.value in entries ==>
        (var made := entries[name.value]();
         r == if made.Ok? then Ok(Some(made.value)) else Raise(made.exc))
    {
      if name.None? {
        return Ok(None);
      }
      if name.value !in entries {
        return Raise(KeyError(name.value));
      }
      var made := entries[name.value]();
      if made.Ok? {
        return Ok(Some(made.value));
      }
      return Raise(made.exc);
    }
  }

  /** Registering twice under one name: `create` calls the later creator. */
  method ReregisterOverrides<T>(name: string, first: () -> Result<T>, second: () -> Result<T>, other: string)
    returns (made: Result<Option<T>>, missing: Result<Option<T>>, none: Result<Option<T>>)
    requires other != name
    ensures made == (var v := second(); if v.Ok? then Ok(Some(v.value)) else Raise(v.exc))
    ensures missing == Raise(KeyError(other))
    ensures none == Ok(None)
  {
    var reg := new Registry<T>();
    reg.Register(name, first);
    reg.Register(name, second);
    made := reg.Create(Some(name));
    missing := reg.Create(Some(other));
    none := reg.Create(None);
  }
}
