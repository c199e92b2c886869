/**
 * The memo caches of SimpleCRUD: dictionaries that are only ever added to.
 * `Fetch` is ReturnCachedOrFuncValue over a map value: a hit returns the stored
 * value, a miss evaluates the value logic and stores its result under the key.
 */
module Memo {

  datatype Fetched<K, V> = Fetched(value: V, cache: map<K, V>)

  /** ReturnCachedOrFuncValue: TryGetValue, else evaluate and AddOrUpdate. */
  function Fetch<K, V(==)>(cache: map<K, V>, key: K, valueLogic: () -> V): (r: Fetched<K, V>)
    ensures key in r.cache && r.cache[key] == r.value
    ensures key in cache ==> r.value == cache[key] && r.cache == cache
    ensures key !in cache ==> r.value == valueLogic() && r.cache == cache[key := r.value]
  {
    if key in cache then Fetched(cache[key], cache)
    else var v := valueLogic(); Fetched(v, cache[key := v])
  }

  /** `later` keeps every entry of `earlier`: the only way the caches ever change. */
  predicate Extends<K, V(==)>(earlier: map<K, V>, later: map<K, V>)
  {
    forall k | k in earlier :: k in later && later[k] == earlier[k]
  }

  /** After a fetch of `key`: the entry held before it, or on a miss `computed`. */
  predicate FetchedAs<K, V(==)>(before: map<K, V>, after: map<K, V>, key: K, computed: V)
  {
    && key in after
    && (key in before ==> after[key] == before[key])
    && (key !in before ==> after[key] == computed)
  }

  /** Later additions leave a fetched entry as it was. */
  lemma FetchedAsGrows<K, V>(before: map<K, V>, mid: map<K, V>, after: map<K, V>, key: K, computed: V)
    requires FetchedAs(before, mid, key, computed) && Extends(mid, after)
    ensures FetchedAs(before, after, key, computed)
  {
  }

  lemma ExtendsTrans<K, V>(a: map<K, V>, b: map<K, V>, c: map<K, V>)
    requires Extends(a, b) && Extends(b, c)
    ensures Extends(a, c)
  {
  }

  /** A fetch adds at most its own key and never changes an entry already present. */
  lemma FetchExtends<K, V>(cache: map<K, V>, key: K, valueLogic: () -> V)
    ensures Extends(cache, Fetch(cache, key, valueLogic).cache)
    ensures Fetch(cache, key, valueLogic).cache.Keys == cache.Keys + {key}
  {
  }

  /**
   * Once a key has been fetched, every later fetch of it returns the same value,
   * whatever value logic it is given and whatever else was cached in between.
   */
  lemma FetchStable<K, V>(cache: map<K, V>, key: K, first: () -> V, later: map<K, V>, second: () -> V)
    requires Extends(Fetch(cache, key, first).cache, later)
    ensures Fetch(later, key, second).value == Fetch(cache, key, first).value
    ensures Fetch(later, key, second).cache == later
  {
  }
}
