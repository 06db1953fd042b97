/**
 * The two operations of System.Collections.Generic.Dictionary the cache relies on:
 * Add, which throws on a key already present, and the indexer, which throws on an
 * absent key. Both are modelled with the exception as an error value.
 */
module Dictionary {
  import opened Outcomes

  datatype Error =
    | DuplicateKey(key: string)   // ArgumentException from Add
    | KeyNotFound(key: string)    // KeyNotFoundException from the indexer

  /** Dictionary.Add: an error on a present key, otherwise the map with one more entry. */
  function Add<V>(m: map<string, V>, key: string, value: V): Result<map<string, V>, Error>
  {
    if key in m then Err(DuplicateKey(key)) else Ok(m[key := value])
  }

  /** Add fails exactly on a present key and then changes nothing; otherwise it adds that one entry and keeps all others. */
  lemma AddEffect<V>(m: map<string, V>, key: string, value: V)
    ensures Add(m, key, value).Ok? <==> key !in m
    ensures Add(m, key, value).Err? ==> Add(m, key, value).error == DuplicateKey(key)
    ensures Add(m, key, value).Ok? ==>
      var m' := Add(m, key, value).value;
      m'.Keys == m.Keys + {key} && m'[key] == value && forall k :: k in m ==> m'[k] == m[k]
  {
  }

  /** The indexer: the stored value, or an error; never a default. */
  function Get<V>(m: map<string, V>, key: string): Result<V, Error>
  {
    if key in m then Ok(m[key]) else Err(KeyNotFound(key))
  }

  /** Reading back after Add: the added key gives the added value, every other key what it gave before. */
  lemma AddThenGet<V>(m: map<string, V>, key: string, value: V, other: string)
    requires Add(m, key, value).Ok?
    ensures Get(Add(m, key, value).value, other) == if other == key then Ok(value) else Get(m, other)
  {
  }

  /** A lookup fails exactly when the key is absent, and then only with KeyNotFound. */
  lemma GetFailsOnlyWhenAbsent<V>(m: map<string, V>, key: string)
    ensures Get(m, key).Err? <==> key !in m
    ensures Get(m, key).Err? ==> Get(m, key).error == KeyNotFound(key)
  {
  }
}
