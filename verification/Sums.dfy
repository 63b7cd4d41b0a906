/** Sums over the values of a finite map. */
module Sums {

  ghost function MapSum<K>(m: map<K, int>): int {
    if m == map[] then 0
    else
      assert m.Keys != {};
      var k :| k in m;
      m[k] + MapSum(m - {k})
  }

  /** The sum does not depend on the order in which keys are taken out. */
  lemma {:induction false} MapSumRemove<K>(m: map<K, int>, k: K)
    requires k in m
    ensures MapSum(m) == m[k] + MapSum(m - {k})
    decreases |m|
  {
    var first :| first in m && MapSum(m) == m[first] + MapSum(m - {first});
    if first != k {
      MapSumRemove(m - {first}, k);
      MapSumRemove(m - {k}, first);
      assert m - {first} - {k} == m - {k} - {first};
    }
  }

  lemma MapSumAdd<K>(m: map<K, int>, k: K, v: int)
    ensures MapSum(m[k := v]) == MapSum(m) - (if k in m then m[k] else 0) + v
  {
    var n := m[k := v];
    MapSumRemove(n, k);
    assert n - {k} == m - {k};
    if k in m {
      MapSumRemove(m, k);
    } else {
      assert m - {k} == m;
    }
  }

  ghost function Restrict<K>(m: map<K, int>, keys: set<K>): map<K, int> {
    map k | k in m && k in keys :: m[k]
  }

  lemma RestrictRemove<K>(m: map<K, int>, keys: set<K>, k: K)
    ensures Restrict(m - {k}, keys) == Restrict(m, keys) - {k}
    ensures k !in keys ==> Restrict(m - {k}, keys) == Restrict(m, keys)
  {
  }

  lemma SubtractRemove<K>(m: map<K, int>, keys: set<K>, k: K)
    ensures (m - {k}) - keys == (m - keys) - {k}
    ensures k in keys ==> (m - {k}) - keys == m - keys
  {
  }

  /** A map sums up to what its two parts sum up to. */
  lemma {:induction false} MapSumParts<K>(m: map<K, int>, keys: set<K>)
    ensures MapSum(m) == MapSum(Restrict(m, keys)) + MapSum(m - keys)
    decreases |m|
  {
    if m == map[] {
      assert Restrict(m, keys) == map[] && m - keys == map[];
    } else {
      assert m.Keys != {};
      var k :| k in m;
      MapSumRemove(m, k);
      MapSumParts(m - {k}, keys);
      RestrictRemove(m, keys, k);
      SubtractRemove(m, keys, k);
      hide MapSum;
      if k in keys {
        assert k in Restrict(m, keys);
        MapSumRemove(Restrict(m, keys), k);
      } else {
        assert k in m - keys;
        MapSumRemove(m - keys, k);
      }
    }
  }

  /** The sum over a sequence of keys, taken from the end. */
  function SeqSum<K>(keys: seq<K>, m: map<K, int>): int
    requires forall k | k in keys :: k in m
  {
    if keys == [] then 0
    else m[keys[|keys| - 1]] + SeqSum(keys[..|keys| - 1], m)
  }

  lemma RestrictLess<K>(m: map<K, int>, keys: set<K>, k: K)
    ensures Restrict(m, keys) - {k} == Restrict(m, keys - {k})
  {
  }

  /** Over distinct keys the sequence sum is the sum of the map restricted to them. */
  lemma {:induction false} SeqSumIsMapSum<K>(keys: seq<K>, m: map<K, int>)
    requires forall k | k in keys :: k in m
    requires forall i, j | 0 <= i < j < |keys| :: keys[i] != keys[j]
    ensures SeqSum(keys, m) == MapSum(Restrict(m, set k | k in keys))
  {
    if keys == [] {
      assert Restrict(m, set k | k in keys) == map[];
    } else {
      var front, last := keys[..|keys| - 1], keys[|keys| - 1];
      SeqSumIsMapSum(front, m);
      hide MapSum;
      var all, some := set k | k in keys, set k | k in front;
      assert last in all && last !in some && all == some + {last} by {
        assert keys == front + [last];
      }
      assert last in Restrict(m, all);
      MapSumRemove(Restrict(m, all), last);
      RestrictLess(m, all, last);
      assert all - {last} == some;
    }
  }

  lemma {:induction false} MapSumNonNegative<K>(m: map<K, int>)
    requires forall k | k in m :: m[k] >= 0
    ensures MapSum(m) >= 0
    decreases |m|
  {
    if m != map[] {
      assert m.Keys != {};
      var k :| k in m;
      MapSumRemove(m, k);
      MapSumNonNegative(m - {k});
    }
  }

  /** A sum of non-negative values vanishes exactly when every value does. */
  lemma {:induction false} MapSumZero<K>(m: map<K, int>)
    requires forall k | k in m :: m[k] >= 0
    ensures MapSum(m) == 0 <==> forall k | k in m :: m[k] == 0
    decreases |m|
  {
    if m != map[] {
      assert m.Keys != {};
      var k :| k in m;
      MapSumRemove(m, k);
      MapSumZero(m - {k});
      MapSumNonNegative(m - {k});
      assert forall j | j in m :: j == k || (j in m - {k} && (m - {k})[j] == m[j]);
      assert forall j | j in m - {k} :: m[j] == (m - {k})[j];
    }
  }
}
