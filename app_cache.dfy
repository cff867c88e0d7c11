/**
 * The desktop application's OCR cache: a dictionary wrapper whose `get`
 * answers None for a missing key while `[]` raises KeyError.
 */
module AppCache {
  import opened Wrappers

  datatype Error = KeyError

  /** `dict.get`. */
  function Lookup<K, V>(m: map<K, V>, key: K): (r: Option<V>)
    ensures r.Some? <==> key in m
    ensures r.Some? ==> r.value == m[key]
  {
    if key in m then Some(m[key]) else None
  }

  /** A write is seen by a later read of the same key and by no other. */
  lemma LookupAfterWrite<K, V>(m: map<K, V>, key: K, value: V, other: K)
    ensures Lookup(m[key := value], key) == Some(value)
    ensures other != key ==> Lookup(m[key := value], other) == Lookup(m, other)
  {
  }

  class OCRCache<K(==), V> {
    var cache: map<K, V>
    /** The keys written since the cache was created or last cleared. */
    ghost var written: set<K>

    ghost predicate Valid()
      reads this
    {
      cache.Keys == written
    }

    constructor ()
      ensures Valid() && cache == map[] && written == {}
    {
      cache := map[];
      written := {};
    }

    method Get(key: K) returns (r: Option<V>)
      ensures r == Lookup(cache, key)
    {
      r := if key in cache then Some(cache[key]) else None;
    }

    method Set(key: K, value: V)
      requires Valid()
      modifies this
      ensures Valid() && cache == old(cache)[key := value] && written == old(written) + {key}
    {
      cache := cache[key := value];
      written := written + {key};
    }

    method Clear()
      modifies this
      ensures Valid() && cache == map[] && written == {}
    {
      cache := map[];
      written := {};
    }

    /** `key in cache`: exactly the keys written since the last clear. */
    method Contains(key: K) returns (r: bool)
      requires Valid()
      ensures r <==> key in written
    {
      r := key in cache;
    }

    /** `cache[key]`, which raises KeyError where `get` gives None. */
    method GetItem(key: K) returns (r: Result<V, Error>)
      ensures r.Err? <==> Lookup(cache, key).None?
      ensures r.Ok? ==> Lookup(cache, key) == Some(r.value)
    {
      if key !in cache {
        return Err(KeyError);
      }
      r := Ok(cache[key]);
    }

    /** `cache[key] = value`, the same overwrite as `set`. */
    method SetItem(key: K, value: V)
      requires Valid()
      modifies this
      ensures Valid() && cache == old(cache)[key := value] && written == old(written) + {key}
    {
      Set(key, value);
    }
  }
}
