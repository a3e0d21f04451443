/**
 * A JavaScript `Map` with string keys: a lookup table plus the keys in
 * insertion order. `set` on a new key appends it, `set` on an existing key
 * keeps its position, `delete` removes it, and `values()` iterates in key order.
 */
module OrderedMaps {
  import opened Wrappers

  datatype OrderedMap<V> = OrderedMap(keys: seq<string>, rows: map<string, V>)
  {
    ghost predicate Valid()
    {
      Distinct(keys) && (forall k :: k in rows <==> k in keys)
    }
  }

  ghost predicate Distinct(keys: seq<string>)
  {
    forall i, j :: 0 <= i < j < |keys| ==> keys[i] != keys[j]
  }

  /** The maps a program can build: no key twice, every key with its entry. */
  type Table<V> = m: OrderedMap<V> | m.Valid() witness OrderedMap([], map[])

  function Empty<V>(): (t: Table<V>)
    ensures t.keys == [] && t.rows == map[]
  {
    OrderedMap([], map[])
  }

  /** `m.get(k)`. */
  function Get<V>(t: Table<V>, k: string): (r: Option<V>)
    ensures r.Some? <==> k in t.keys
    ensures r.Some? ==> r.value == t.rows[k]
  {
    if k in t.rows then Some(t.rows[k]) else None
  }

  /** `m.size`. */
  function Size<V>(t: Table<V>): nat
  {
    |t.keys|
  }

  /** `Array.from(m.values())`. */
  function Values<V>(t: Table<V>): (r: seq<V>)
    ensures |r| == Size(t)
    ensures forall i :: 0 <= i < |r| ==> r[i] == t.rows[t.keys[i]]
  {
    seq(|t.keys|, i requires 0 <= i < |t.keys| => t.rows[t.keys[i]])
  }

  /** The position of a present key. */
  function Position(keys: seq<string>, k: string): (i: nat)
    requires k in keys
    ensures i < |keys| && keys[i] == k
  {
    if keys[0] == k then 0 else 1 + Position(keys[1..], k)
  }

  /**
   * `m.set(k, v)`: afterwards `k` maps to `v` and nothing else changes; a new
   * key goes last, an existing one keeps its place.
   */
  function Set<V>(t: Table<V>, k: string, v: V): (r: Table<V>)
    ensures Get(r, k) == Some(v)
    ensures forall j :: j != k ==> Get(r, j) == Get(t, j)
    ensures k in t.keys ==> r.keys == t.keys
    ensures k !in t.keys ==> r.keys == t.keys + [k]
  {
    if k in t.rows then OrderedMap(t.keys, t.rows[k := v])
    else OrderedMap(t.keys + [k], t.rows[k := v])
  }

  /** The keys without `k`, order kept. */
  function Without(keys: seq<string>, k: string): (r: seq<string>)
    ensures forall x :: x in r <==> x in keys && x != k
    ensures |r| <= |keys|
  {
    if |keys| == 0 then []
    else if keys[0] == k then Without(keys[1..], k)
    else [keys[0]] + Without(keys[1..], k)
  }

  lemma {:induction false} WithoutDistinct(keys: seq<string>, k: string)
    requires Distinct(keys)
    ensures Distinct(Without(keys, k))
  {
    if |keys| > 0 {
      WithoutDistinct(keys[1..], k);
      assert keys[0] !in keys[1..];
      if keys[0] != k {
        var rest := Without(keys[1..], k);
        assert keys[0] !in rest;
        assert Without(keys, k) == [keys[0]] + rest;
      }
    }
  }

  lemma {:induction false} WithoutAbsent(keys: seq<string>, k: string)
    requires k !in keys
    ensures Without(keys, k) == keys
  {
    if |keys| > 0 {
      WithoutAbsent(keys[1..], k);
    }
  }

  /** `m.delete(k)`: `k` is gone, everything else stays, and a missing key changes nothing. */
  function Delete<V>(t: Table<V>, k: string): (r: Table<V>)
    ensures Get(r, k) == None
    ensures forall j :: j != k ==> Get(r, j) == Get(t, j)
    ensures r.keys == Without(t.keys, k)
    ensures k !in t.keys ==> r == t
  {
    WithoutDistinct(t.keys, k);
    assert k !in t.keys ==> Without(t.keys, k) == t.keys by {
      if k !in t.keys { WithoutAbsent(t.keys, k); }
    }
    OrderedMap(Without(t.keys, k), t.rows - {k})
  }

  /** Deleting twice is deleting once. */
  lemma DeleteIdempotent<V>(t: Table<V>, k: string)
    ensures Delete(Delete(t, k), k) == Delete(t, k)
  {
  }

  /** A set on a new key adds exactly one entry, last in iteration order. */
  lemma SetNewKey<V>(t: Table<V>, k: string, v: V)
    requires k !in t.keys
    ensures Size(Set(t, k, v)) == Size(t) + 1
    ensures Values(Set(t, k, v)) == Values(t) + [v]
  {
    var r := Set(t, k, v);
    assert forall i :: 0 <= i < |t.keys| ==> t.keys[i] != k;
    assert forall i :: 0 <= i < |t.keys| ==> Values(r)[i] == Values(t)[i];
  }

  /** A set on an existing key replaces its value in place. */
  lemma SetExistingKey<V>(t: Table<V>, k: string, v: V)
    requires k in t.keys
    ensures Size(Set(t, k, v)) == Size(t)
    ensures Values(Set(t, k, v)) == Values(t)[Position(t.keys, k) := v]
  {
    var r := Set(t, k, v);
    var p := Position(t.keys, k);
    forall i | 0 <= i < |t.keys|
      ensures Values(r)[i] == Values(t)[p := v][i]
    {
      if i != p {
        assert t.keys[i] != t.keys[p];
      }
    }
  }
}
