/** fetchCollectionName and its process-wide cache (handlers/export.go): the
    cache maps a collection id to its display name; a hit answers without a
    lookup, a miss performs the lookup (collections.info through the rate-limit
    wrapper, status and decoding checks folded into one Result) and stores the
    name only when the lookup succeeded. The mutex is not modelled: lookups are
    sequential here. */
module CollectionCache {
  import opened Common

  datatype Resolution = Resolution(name: Result<string>, cache: map<string, string>, lookedUp: bool)

  /** One call of fetchCollectionName on a cache value. */
  function Resolve(cache: map<string, string>, id: string, lookup: string -> Result<string>): Resolution {
    if id in cache then Resolution(Success(cache[id]), cache, false)
    else match lookup(id)
      case Failure(e) => Resolution(Failure(e), cache, true)
      case Success(name) => Resolution(Success(name), cache[id := name], true)
  }

  class NameCache {
    var entries: map<string, string>

    constructor ()
      ensures entries == map[]
    {
      entries := map[];
    }

    method FetchCollectionName(id: string, lookup: string -> Result<string>)
      returns (name: Result<string>, lookedUp: bool)
      modifies this
      ensures Resolution(name, entries, lookedUp) == Resolve(old(entries), id, lookup)
      ensures id in old(entries) ==> !lookedUp && name == Success(old(entries)[id]) && entries == old(entries)
    {
      if id in entries {
        return Success(entries[id]), false;
      }
      var fetched := lookup(id);
      if fetched.Failure? {
        return Failure(fetched.error), true;
      }
      entries := entries[id := fetched.value];
      return Success(fetched.value), true;
    }
  }

  /** A hit returns the cached name and performs no lookup. */
  lemma ResolveHit(cache: map<string, string>, id: string, lookup: string -> Result<string>)
    requires id in cache
    ensures Resolve(cache, id, lookup) == Resolution(Success(cache[id]), cache, false)
  {
  }

  /** A miss performs exactly one lookup; success stores id -> name and returns
      the name, failure returns the error and leaves the cache as it was. */
  lemma ResolveMiss(cache: map<string, string>, id: string, lookup: string -> Result<string>)
    requires id !in cache
    ensures var r := Resolve(cache, id, lookup);
      && r.lookedUp
      && r.name == lookup(id)
      && r.cache == (if lookup(id).Success? then cache[id := lookup(id).value] else cache)
  {
  }

  /** Only the key asked for is ever written, and a stored name never changes. */
  lemma ResolveOnlyWritesId(cache: map<string, string>, id: string, lookup: string -> Result<string>)
    ensures var r := Resolve(cache, id, lookup);
      && r.cache.Keys <= cache.Keys + {id}
      && forall k :: k in cache ==> k in r.cache && r.cache[k] == cache[k]
  {
  }

  /** Two sequential resolutions of the same id: once the first has succeeded,
      the second is a hit with the same name and no lookup, whatever the
      lookup would now answer. */
  lemma ResolveTwice(cache: map<string, string>, id: string, first: string -> Result<string>, second: string -> Result<string>)
    requires Resolve(cache, id, first).name.Success?
    ensures var r1 := Resolve(cache, id, first);
      var r2 := Resolve(r1.cache, id, second);
      && r2 == Resolution(r1.name, r1.cache, false)
  {
  }
}
