/**
 * A case-insensitive dict in the manner of `requests.structures.CaseInsensitiveDict`:
 * entries are stored under the folded key and remember the key as it was last set,
 * which is the key `items()` reports.
 */
module CaseInsensitive {
  import opened Wrappers
  import opened Text

  /** Folded key -> (key as last written, value). */
  type Table<V> = m: map<string, (string, V)> | forall k :: k in m ==> Lower(m[k].0) == k
    witness map[]

  function Empty<V>(): (t: Table<V>)
    ensures |t| == 0
  {
    map[]
  }

  /** `t[key]`, matching keys without regard to case. */
  function Get<V>(t: Table<V>, key: string): (r: Option<V>)
    ensures r.Some? <==> exists k :: k in t && Lower(t[k].0) == Lower(key)
  {
    if Lower(key) in t then Some(t[Lower(key)].1) else None
  }

  /** `t[key] = v`: replaces any entry whose key differs from `key` only in case. */
  function Put<V>(t: Table<V>, key: string, v: V): (r: Table<V>)
    ensures Get(r, key) == Some(v)
    ensures forall k :: Lower(k) != Lower(key) ==> Get(r, k) == Get(t, k)
    ensures key in Items(r) && Items(r)[key] == v
  {
    t[Lower(key) := (key, v)]
  }

  /** `dict(t.items())`: a plain dict keyed by the keys as last written. */
  function Items<V>(t: Table<V>): (d: map<string, V>)
    ensures forall k :: k in d <==> Lower(k) in t && t[Lower(k)].0 == k
    ensures forall k :: k in d ==> Get(t, k) == Some(d[k])
  {
    map k | k in t :: t[k].0 := t[k].1
  }

  /** Case never separates two entries: keys that fold alike find the same entry. */
  lemma GetIgnoresCase<V>(t: Table<V>, a: string, b: string)
    requires Lower(a) == Lower(b)
    ensures Get(t, a) == Get(t, b)
  {
  }

  /** Every entry shows up in `items()` under the key it was last written with. */
  lemma ItemsCoverEntries<V>(t: Table<V>, key: string)
    requires Get(t, key).Some?
    ensures exists k :: k in Items(t) && Lower(k) == Lower(key) && Items(t)[k] == Get(t, key).value
  {
    var k := t[Lower(key)].0;
    assert k in Items(t);
  }
}
