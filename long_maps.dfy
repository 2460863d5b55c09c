/** The add-or-insert counter map (MutableLongMap) and the value-level view of it
    that the rest of the model reasons about: a map from keys to accumulated
    (unbounded) integers. */
module LongMaps {

  /** The value stored under `k`, or 0 when `k` has never been added. */
  function GetOrZero<K>(m: map<K, int>, k: K): int
  {
    if k in m then m[k] else 0
  }

  /** One (key, delta) pair handed to `add`. */
  type Delta<K> = (K, int)

  /** The map obtained by applying `add(k, d)` for every pair of `ds`, in order. */
  function Accumulate<K>(m: map<K, int>, ds: seq<Delta<K>>): map<K, int>
    decreases |ds|
  {
    if ds == [] then m
    else
      var last := ds[|ds| - 1];
      var before := Accumulate(m, ds[..|ds| - 1]);
      before[last.0 := GetOrZero(before, last.0) + last.1]
  }

  /** The sum of all deltas of `ds`. */
  function DeltaSum<K>(ds: seq<Delta<K>>): int
    decreases |ds|
  {
    if ds == [] then 0 else DeltaSum(ds[..|ds| - 1]) + ds[|ds| - 1].1
  }

  /** The sum of the deltas of `ds` that are given under key `k`. */
  function DeltaSumFor<K(==)>(ds: seq<Delta<K>>, k: K): int
    decreases |ds|
  {
    if ds == [] then 0
    else DeltaSumFor(ds[..|ds| - 1], k) + (if ds[|ds| - 1].0 == k then ds[|ds| - 1].1 else 0)
  }

  /** The set of keys that occur in `ds`. */
  function DeltaKeys<K>(ds: seq<Delta<K>>): set<K>
    decreases |ds|
  {
    if ds == [] then {} else DeltaKeys(ds[..|ds| - 1]) + {ds[|ds| - 1].0}
  }

  lemma {:induction false} DeltaSumAppend<K>(a: seq<Delta<K>>, b: seq<Delta<K>>)
    ensures DeltaSum(a + b) == DeltaSum(a) + DeltaSum(b)
    decreases |b|
  {
    if b != [] {
      assert (a + b)[..|a + b| - 1] == a + b[..|b| - 1];
      DeltaSumAppend(a, b[..|b| - 1]);
    } else {
      assert a + b == a;
    }
  }

  lemma {:induction false} AccumulateAppend<K>(m: map<K, int>, a: seq<Delta<K>>, b: seq<Delta<K>>)
    ensures Accumulate(m, a + b) == Accumulate(Accumulate(m, a), b)
    decreases |b|
  {
    if b != [] {
      var ab := a + b;
      assert ab[..|ab| - 1] == a + b[..|b| - 1];
      assert ab[|ab| - 1] == b[|b| - 1];
      AccumulateAppend(m, a, b[..|b| - 1]);
    } else {
      assert a + b == a;
    }
  }

  lemma {:induction false} DeltaSumForAppend<K>(a: seq<Delta<K>>, b: seq<Delta<K>>, k: K)
    ensures DeltaSumFor(a + b, k) == DeltaSumFor(a, k) + DeltaSumFor(b, k)
    decreases |b|
  {
    if b != [] {
      var ab := a + b;
      assert ab[..|ab| - 1] == a + b[..|b| - 1];
      assert ab[|ab| - 1] == b[|b| - 1];
      DeltaSumForAppend(a, b[..|b| - 1], k);
    } else {
      assert a + b == a;
    }
  }

  lemma {:induction false} DeltaKeysAppend<K>(a: seq<Delta<K>>, b: seq<Delta<K>>)
    ensures DeltaKeys(a + b) == DeltaKeys(a) + DeltaKeys(b)
    decreases |b|
  {
    if b != [] {
      var ab := a + b;
      assert ab[..|ab| - 1] == a + b[..|b| - 1];
      assert ab[|ab| - 1] == b[|b| - 1];
      DeltaKeysAppend(a, b[..|b| - 1]);
    } else {
      assert a + b == a;
    }
  }

  /** What a single delta amounts to. */
  lemma SingleDelta<K>(m: map<K, int>, k: K, d: int, j: K)
    ensures Accumulate(m, [(k, d)]) == m[k := GetOrZero(m, k) + d]
    ensures DeltaSum([(k, d)]) == d
    ensures DeltaSumFor([(k, d)], j) == if k == j then d else 0
    ensures DeltaKeys([(k, d)]) == {k}
  {
    assert [(k, d)][..0] == [];
  }

  /** Accumulating `ds` adds to each key exactly the deltas given under that key,
      and creates exactly the keys that occur in `ds`. */
  lemma {:induction false} AccumulateAt<K>(m: map<K, int>, ds: seq<Delta<K>>, k: K)
    ensures GetOrZero(Accumulate(m, ds), k) == GetOrZero(m, k) + DeltaSumFor(ds, k)
    ensures (k in Accumulate(m, ds)) <==> (k in m || k in DeltaKeys(ds))
    decreases |ds|
  {
    if ds != [] {
      AccumulateAt(m, ds[..|ds| - 1], k);
    }
  }

  /** An arbitrary but fixed key of a non-empty map. */
  ghost function Pick<K>(m: map<K, int>): (k: K)
    requires m != map[]
    ensures k in m
  {
    var k :| k in m; k
  }

  /** The sum of all values of a map. */
  ghost function MapSum<K>(m: map<K, int>): int
    decreases |m|
  {
    if m == map[] then 0
    else
      var k := Pick(m);
      assert (m - {k}).Keys == m.Keys - {k};
      m[k] + MapSum(m - {k})
  }

  /** MapSum does not depend on which key is taken out first. */
  lemma {:induction false} MapSumRemove<K>(m: map<K, int>, k: K)
    requires k in m
    ensures MapSum(m) == m[k] + MapSum(m - {k})
    decreases |m|
  {
    var j := Pick(m);
    if j != k {
      assert (m - {j}).Keys == m.Keys - {j};
      assert (m - {k}).Keys == m.Keys - {k};
      MapSumRemove(m - {j}, k);
      MapSumRemove(m - {k}, j);
      assert m - {j} - {k} == m - {k} - {j};
    }
  }

  /** One `add(k, d)` raises the sum of all values by exactly `d`. */
  lemma MapSumAdd<K>(m: map<K, int>, k: K, d: int)
    ensures MapSum(m[k := GetOrZero(m, k) + d]) == MapSum(m) + d
  {
    var m' := m[k := GetOrZero(m, k) + d];
    MapSumRemove(m', k);
    assert m' - {k} == m - {k};
    if k in m {
      MapSumRemove(m, k);
    } else {
      assert m - {k} == m;
    }
  }

  /** Accumulating a list of deltas raises the sum of all values by the sum of
      the deltas: no delta is lost or counted twice. */
  lemma {:induction false} AccumulateSum<K>(m: map<K, int>, ds: seq<Delta<K>>)
    ensures MapSum(Accumulate(m, ds)) == MapSum(m) + DeltaSum(ds)
    decreases |ds|
  {
    if ds != [] {
      AccumulateSum(m, ds[..|ds| - 1]);
      var last := ds[|ds| - 1];
      MapSumAdd(Accumulate(m, ds[..|ds| - 1]), last.0, last.1);
    }
  }

  /** The values of `m` under the keys listed in `ks`, summed (0 for an absent key). */
  function SumOver<K>(m: map<K, int>, ks: seq<K>): int
    decreases |ks|
  {
    if ks == [] then 0 else SumOver(m, ks[..|ks| - 1]) + GetOrZero(m, ks[|ks| - 1])
  }

  /** Summing a map over a repetition-free list that names every key of the map
      gives the sum of all its values. */
  lemma {:induction false} SumOverAll<K>(m: map<K, int>, ks: seq<K>)
    requires forall i, j :: 0 <= i < j < |ks| ==> ks[i] != ks[j]
    requires forall k :: k in m ==> k in ks
    ensures SumOver(m, ks) == MapSum(m)
    decreases |ks|
  {
    if ks == [] {
      assert m == map[];
    } else {
      var init, k := ks[..|ks| - 1], ks[|ks| - 1];
      var rest := m - {k};
      forall k' | k' in rest
        ensures k' in init
      {
        var i :| 0 <= i < |ks| && ks[i] == k';
        assert i < |ks| - 1;
        assert init[i] == k';
      }
      SumOverAll(rest, init);
      SumOverAgree(m, rest, init);
      if k in m {
        MapSumRemove(m, k);
      } else {
        assert rest == m;
      }
    }
  }

  /** Two maps that agree on every listed key have the same sum over the list. */
  lemma {:induction false} SumOverAgree<K>(m: map<K, int>, m': map<K, int>, ks: seq<K>)
    requires forall i :: 0 <= i < |ks| ==> GetOrZero(m, ks[i]) == GetOrZero(m', ks[i])
    ensures SumOver(m, ks) == SumOver(m', ks)
    decreases |ks|
  {
    if ks != [] {
      SumOverAgree(m, m', ks[..|ks| - 1]);
    }
  }

  /** The counter map that the source updates in place; `entries` is its
      content, keyed by K with the accumulated value of each key. */
  class LongMap<K(==)> {
    var entries: map<K, int>

    constructor ()
      ensures entries == map[]
    {
      entries := map[];
    }

    /** Adds `delta` to the value under `key`, inserting `key` with value
        `delta` when it is absent; every other entry is left as it was. */
    method Add(key: K, delta: int)
      modifies this
      ensures entries == old(entries)[key := GetOrZero(old(entries), key) + delta]
      ensures entries.Keys == old(entries).Keys + {key}
      ensures entries[key] == GetOrZero(old(entries), key) + delta
      ensures forall k :: k in old(entries) && k != key ==> entries[k] == old(entries)[k]
    {
      if key !in entries {
        entries := entries[key := delta];
      } else {
        entries := entries[key := entries[key] + delta];
      }
    }
  }
}
