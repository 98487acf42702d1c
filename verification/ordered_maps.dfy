/** Python dictionaries remember insertion order, and the monitors expose that
    order (the per-cluster alert counts, the cached rule table). An ordered map
    is a sequence of key/value pairs; assigning to an existing key keeps its
    place, assigning to a new key appends it. */
module OrderedMaps {
  import opened Wrappers

  type OrderedMap<K, V> = seq<(K, V)>

  function Keys<K, V>(m: OrderedMap<K, V>): (r: seq<K>)
    ensures |r| == |m|
    ensures forall i :: 0 <= i < |m| ==> r[i] == m[i].0
  {
    seq(|m|, i requires 0 <= i < |m| => m[i].0)
  }

  /** `d.values()`, in insertion order. */
  function Values<K, V>(m: OrderedMap<K, V>): (r: seq<V>)
    ensures |r| == |m|
    ensures forall i :: 0 <= i < |m| ==> r[i] == m[i].1
  {
    seq(|m|, i requires 0 <= i < |m| => m[i].1)
  }

  predicate DistinctKeys<K(==), V>(m: OrderedMap<K, V>)
  {
    forall i, j :: 0 <= i < j < |m| ==> m[i].0 != m[j].0
  }

  /** Position of the first entry with key `k`. */
  function FirstIndex<K(==), V>(m: OrderedMap<K, V>, k: K): (r: Option<nat>)
    ensures r.Some? ==> r.value < |m| && m[r.value].0 == k
    ensures r.Some? ==> forall j :: 0 <= j < r.value ==> m[j].0 != k
    ensures r.None? ==> forall j :: 0 <= j < |m| ==> m[j].0 != k
  {
    if |m| == 0 then None
    else if m[0].0 == k then Some(0)
    else
      match FirstIndex(m[1..], k)
      case None => None
      case Some(i) => Some(i + 1)
  }

  /** `d.get(k)`. */
  function Get<K(==), V>(m: OrderedMap<K, V>, k: K): (r: Option<V>)
    ensures r.None? <==> k !in Keys(m)
    ensures r.Some? ==> (k, r.value) in m
  {
    match FirstIndex(m, k)
    case None => None
    case Some(i) => Some(m[i].1)
  }

  /** The first position is pinned down by the key column alone. */
  lemma FirstIndexIs<K, V>(m: OrderedMap<K, V>, k: K, j: nat)
    requires j < |m| && m[j].0 == k
    requires forall i :: 0 <= i < j ==> m[i].0 != k
    ensures FirstIndex(m, k) == Some(j)
  {
  }

  /** `d[k] = v`. */
  function Put<K(==), V>(m: OrderedMap<K, V>, k: K, v: V): (r: OrderedMap<K, V>)
    ensures k in Keys(m) ==> Keys(r) == Keys(m)
    ensures k !in Keys(m) ==> Keys(r) == Keys(m) + [k]
    ensures Get(r, k) == Some(v)
    ensures DistinctKeys(m) ==> DistinctKeys(r)
    ensures forall i :: 0 <= i < |r| ==> r[i] == (k, v) || r[i] in m
  {
    match FirstIndex(m, k)
    case Some(i) =>
      var r := m[i := (k, v)];
      assert Keys(r) == Keys(m);
      FirstIndexIs(r, k, i);
      r
    case None =>
      var r := m + [(k, v)];
      assert Keys(r) == Keys(m) + [k];
      FirstIndexIs(r, k, |m|);
      r
  }

  /** Assigning one key leaves every other key's value alone. */
  lemma PutOther<K, V>(m: OrderedMap<K, V>, k: K, v: V, k': K)
    requires k' != k
    ensures Get(Put(m, k, v), k') == Get(m, k')
  {
    var r := Put(m, k, v);
    match FirstIndex(m, k')
    case Some(j) =>
      assert r[j] == m[j];
      FirstIndexIs(r, k', j);
    case None =>
      assert forall i :: 0 <= i < |r| ==> r[i].0 != k' by {
        forall i | 0 <= i < |r| ensures r[i].0 != k' {
          assert Keys(r)[i] == r[i].0;
        }
      }
  }

  /** `sum(d.values())` for integer-valued maps. */
  function SumValues<K>(m: OrderedMap<K, int>): int
  {
    if |m| == 0 then 0 else SumValues(m[..|m| - 1]) + m[|m| - 1].1
  }

  lemma {:induction false} SumValuesUpdate<K>(m: OrderedMap<K, int>, i: nat, k: K, v: int)
    requires i < |m|
    ensures SumValues(m[i := (k, v)]) == SumValues(m) - m[i].1 + v
  {
    var r := m[i := (k, v)];
    if i < |m| - 1 {
      assert r[..|r| - 1] == m[..|m| - 1][i := (k, v)];
      SumValuesUpdate(m[..|m| - 1], i, k, v);
    } else {
      assert r[..|r| - 1] == m[..|m| - 1];
    }
  }

  /** Assigning `d[k] = v` moves the value sum by v minus the value it
      replaces (nothing, for a new key). */
  lemma SumValuesPut<K>(m: OrderedMap<K, int>, k: K, v: int)
    ensures SumValues(Put(m, k, v)) == SumValues(m) - Get(m, k).GetOr(0) + v
  {
    match FirstIndex(m, k)
    case Some(i) =>
      SumValuesUpdate(m, i, k, v);
    case None =>
      assert (m + [(k, v)])[..|m|] == m;
  }

  /** A lookup skips a first entry with another key. */
  lemma GetTail<K, V>(m: OrderedMap<K, V>, k: K)
    requires |m| > 0 && m[0].0 != k
    ensures Get(m, k) == Get(m[1..], k)
  {
    match FirstIndex(m[1..], k)
    case None =>
    case Some(i) => assert m[i + 1] == m[1..][i];
  }

  /** `{**d, **e}`: the entries of `e` assigned in order over `d`. */
  function PutAll<K(==), V>(m: OrderedMap<K, V>, e: OrderedMap<K, V>): (r: OrderedMap<K, V>)
    ensures DistinctKeys(m) ==> DistinctKeys(r)
    decreases |e|
  {
    if |e| == 0 then m else PutAll(Put(m, e[0].0, e[0].1), e[1..])
  }

  /** In a merge the later dictionary wins: a key of `e` reads `e`'s value,
      any other key reads what `m` had. */
  lemma {:induction false} PutAllGet<K, V>(m: OrderedMap<K, V>, e: OrderedMap<K, V>, k: K)
    requires DistinctKeys(e)
    ensures Get(PutAll(m, e), k) == if k in Keys(e) then Get(e, k) else Get(m, k)
    decreases |e|
  {
    if |e| > 0 {
      var k0, v0 := e[0].0, e[0].1;
      var tail := e[1..];
      assert Keys(e) == [k0] + Keys(tail);
      assert DistinctKeys(tail) by {
        forall i, j | 0 <= i < j < |tail| ensures tail[i].0 != tail[j].0 {
          assert tail[i] == e[i + 1] && tail[j] == e[j + 1];
        }
      }
      PutAllGet(Put(m, k0, v0), tail, k);
      if k == k0 {
        assert k !in Keys(tail) by {
          forall i | 0 <= i < |tail| ensures Keys(tail)[i] != k {
            assert tail[i] == e[i + 1];
          }
        }
        FirstIndexIs(e, k, 0);
      } else {
        PutOther(m, k0, v0, k);
        GetTail(e, k);
      }
    }
  }
}
