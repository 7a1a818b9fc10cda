/**
 * get_or_set_cached_constants of contentcuration/views.py: a read-through
 * cache of the rendered JSON of a constant table (file formats, licenses,
 * format presets, content kinds, languages), keyed by the table's class name.
 */
module ConstantsCache {

  type Bytes = seq<bv8>

  /** Python truthiness of a cached value: None (absent) and b'' are falsy. */
  predicate IsHit(entries: map<string, Bytes>, name: string) {
    name in entries && entries[name] != []
  }

  /** The cache backend, entries set without a timeout. */
  class Cache {
    var entries: map<string, Bytes>

    constructor ()
      ensures entries == map[]
    {
      entries := map[];
    }

    /** Returns the cached rendering of the constant `name` when it is there
        and non-empty; otherwise stores `rendered` (the freshly serialised
        table) under `name` and returns it. */
    method GetOrSet(name: string, rendered: Bytes) returns (data: Bytes)
      modifies this
      ensures old(IsHit(entries, name)) ==> data == old(entries[name]) && entries == old(entries)
      ensures !old(IsHit(entries, name)) ==> data == rendered && entries == old(entries)[name := rendered]
      ensures name in entries && entries[name] == data
      ensures forall k :: k != name ==> (k in entries <==> k in old(entries))
      ensures forall k :: k != name && k in entries ==> entries[k] == old(entries[k])
    {
      var cachedData := if name in entries then entries[name] else [];
      if cachedData != [] {
        return cachedData;
      }
      entries := entries[name := rendered];
      return rendered;
    }
  }

  /** Two calls in a row for the same constant return the same data when the
      rendering is non-empty: the first call leaves a hit behind. */
  method GetTwice(cache: Cache, name: string, rendered: Bytes, renderedAgain: Bytes) returns (first: Bytes, second: Bytes)
    requires rendered != []
    modifies cache
    ensures first == second
  {
    first := cache.GetOrSet(name, rendered);
    second := cache.GetOrSet(name, renderedAgain);
  }
}
