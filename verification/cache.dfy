/** The retrieval cache: a dictionary with hit and miss counters. */
module Cache {
  import opened Common

  /** Lookup counters. */
  class CacheStats {
    var hits: nat
    var misses: nat

    constructor ()
      ensures hits == 0 && misses == 0
    {
      hits := 0;
      misses := 0;
    }

    /** `record(hit)`: counts one lookup as a hit or as a miss. */
    method Record(hit: bool)
      modifies this
      ensures hits == old(hits) + (if hit then 1 else 0)
      ensures misses == old(misses) + (if hit then 0 else 1)
      ensures hits + misses == old(hits) + old(misses) + 1
    {
      hits := hits + (if hit then 1 else 0);
      misses := misses + (if hit then 0 else 1);
    }

    /** `hit_rate`: the share of lookups that hit, 0 before any lookup. */
    function HitRate(): (r: real)
      reads this
      ensures hits + misses == 0 ==> r == 0.0
      ensures hits + misses > 0 ==> r * (hits + misses) as real == hits as real
      ensures 0.0 <= r <= 1.0
      ensures r == 1.0 <==> hits > 0 && misses == 0
      ensures r == 0.0 <==> hits == 0
    {
      var t := hits + misses;
      if t == 0 then 0.0 else Share(hits, t)
    }
  }

  /** `k / t` for `k <= t`, `t > 0`. */
  function Share(k: nat, t: nat): (r: real)
    requires 0 < t && k <= t
    ensures r * t as real == k as real
    ensures 0.0 <= r <= 1.0
    ensures r == 1.0 <==> k == t
    ensures r == 0.0 <==> k == 0
  {
    UnitRatio(k as real, t as real);
    k as real / t as real
  }

  /** A dictionary cache that counts its lookups. */
  class SimpleCache<K(==), V> {
    var store: map<K, V>
    var stats: CacheStats

    constructor ()
      ensures store == map[] && fresh(stats) && stats.hits == 0 && stats.misses == 0
    {
      store := map[];
      stats := new CacheStats();
    }

    /** `get(key)`: `(True, value)` and a hit when the key is stored,
        `(False, None)` and a miss otherwise; the store is left alone. */
    method Get(key: K) returns (found: bool, value: Option<V>)
      modifies stats
      ensures found <==> key in store
      ensures found ==> value == Some(store[key])
      ensures !found ==> value == None
      ensures stats.hits == old(stats.hits) + (if found then 1 else 0)
      ensures stats.misses == old(stats.misses) + (if found then 0 else 1)
    {
      if key in store {
        stats.Record(true);
        return true, Some(store[key]);
      }
      stats.Record(false);
      return false, None;
    }

    /** `set(key, val)`: stores the value; the counters are left alone. */
    method Set(key: K, val: V)
      modifies this
      ensures store == old(store)[key := val]
      ensures stats == old(stats) && unchanged(stats)
    {
      store := store[key := val];
    }
  }

  /** A lookup of a key just stored finds the stored value and counts as a
      hit. */
  method SetThenGet<K(==), V>(c: SimpleCache<K, V>, key: K, val: V) returns (found: bool, value: Option<V>)
    modifies c, c.stats
    ensures found && value == Some(val)
    ensures c.store == old(c.store)[key := val]
    ensures c.stats.hits == old(c.stats.hits) + 1 && c.stats.misses == old(c.stats.misses)
  {
    c.Set(key, val);
    found, value := c.Get(key);
  }

  /** Setting one key leaves every other key's lookup as it was. */
  method SetThenGetOther<K(==), V>(c: SimpleCache<K, V>, key: K, val: V, other: K) returns (found: bool, value: Option<V>)
    requires other != key
    modifies c, c.stats
    ensures found <==> other in old(c.store)
    ensures found ==> value == Some(old(c.store)[other])
    ensures !found ==> value == None
  {
    c.Set(key, val);
    found, value := c.Get(other);
  }
}
