/** A JavaScript `Map` as its entries in insertion order (section 24.1 of ECMA-262): setting an
    existing key keeps its place, setting a new key appends, deleting closes the gap. */
module InsertionMaps {
  import opened Wrappers

  type InsertionMap<K, V> = seq<(K, V)>

  ghost predicate DistinctKeys<K, V>(m: InsertionMap<K, V>) {
    forall i, j | 0 <= i < j < |m| :: m[i].0 != m[j].0
  }

  /** The position of `k`, or the length of the map when it is absent. */
  function IndexOf<K(==), V>(m: InsertionMap<K, V>, k: K): (i: nat)
    ensures i <= |m|
    ensures i < |m| ==> m[i].0 == k
    ensures forall j | 0 <= j < i :: m[j].0 != k
  {
    if m == [] || m[0].0 == k then 0 else 1 + IndexOf(m[1..], k)
  }

  predicate Has<K(==), V>(m: InsertionMap<K, V>, k: K) {
    IndexOf(m, k) < |m|
  }

  function Get<K(==), V>(m: InsertionMap<K, V>, k: K): Option<V> {
    if Has(m, k) then Some(m[IndexOf(m, k)].1) else None
  }

  function Set<K(==), V>(m: InsertionMap<K, V>, k: K, v: V): InsertionMap<K, V> {
    if Has(m, k) then m[IndexOf(m, k) := (k, v)] else m + [(k, v)]
  }

  function Delete<K(==), V>(m: InsertionMap<K, V>, k: K): InsertionMap<K, V> {
    if Has(m, k) then m[..IndexOf(m, k)] + m[IndexOf(m, k) + 1..] else m
  }

  function KeySet<K(==), V>(m: InsertionMap<K, V>): set<K> {
    set i | 0 <= i < |m| :: m[i].0
  }

  function Values<K, V>(m: InsertionMap<K, V>): (s: seq<V>)
    ensures |s| == |m| && forall i | 0 <= i < |m| :: s[i] == m[i].1
  {
    seq(|m|, i requires 0 <= i < |m| => m[i].1)
  }

  lemma DeleteKeepsDistinct<K, V>(m: InsertionMap<K, V>, k: K)
    requires DistinctKeys(m)
    ensures DistinctKeys(Delete(m, k)) && !Has(Delete(m, k), k)
  {
    var d, i := Delete(m, k), IndexOf(m, k);
    if Has(m, k) {
      assert forall j | 0 <= j < |d| :: d[j] == if j < i then m[j] else m[j + 1];
    }
  }

  /** Deleting moves the later entries one place down and touches nothing else. */
  lemma DeleteShifts<K, V>(m: InsertionMap<K, V>, k: K)
    ensures |Delete(m, k)| == |m| - if Has(m, k) then 1 else 0
    ensures forall j | 0 <= j < |Delete(m, k)| :: Delete(m, k)[j] == m[if j < IndexOf(m, k) then j else j + 1]
  {
  }

  lemma AppendKeys<K, V>(m: InsertionMap<K, V>, k: K, v: V)
    requires DistinctKeys(m) && !Has(m, k)
    ensures DistinctKeys(m + [(k, v)]) && KeySet(m + [(k, v)]) == KeySet(m) + {k}
  {
    var n := m + [(k, v)];
    assert n[|m|].0 == k;
    forall x ensures x in KeySet(n) <==> x in KeySet(m) + {k} {
      if j :| 0 <= j < |m| && m[j].0 == x {
        assert n[j].0 == x;
      }
    }
  }

  lemma HasIsMembership<K, V>(m: InsertionMap<K, V>, k: K)
    ensures Has(m, k) <==> k in KeySet(m)
  {
  }

  lemma DeleteKeys<K, V>(m: InsertionMap<K, V>, k: K)
    requires DistinctKeys(m)
    ensures KeySet(Delete(m, k)) == KeySet(m) - {k}
  {
    var d, i := Delete(m, k), IndexOf(m, k);
    if Has(m, k) {
      forall x ensures x in KeySet(d) <==> x in KeySet(m) - {k} {
        if j :| 0 <= j < |d| && d[j].0 == x {
          assert d[j] == m[if j < i then j else j + 1];
        }
        if j :| 0 <= j < |m| && m[j].0 == x && x != k {
          assert d[if j < i then j else j - 1] == m[j];
        }
      }
    } else {
      HasIsMembership(m, k);
    }
  }

  lemma ValuesConcat<K, V>(a: InsertionMap<K, V>, b: InsertionMap<K, V>)
    ensures Values(a + b) == Values(a) + Values(b)
    ensures multiset(Values(a + b)) == multiset(Values(a)) + multiset(Values(b))
  {
    assert Values(a + b) == Values(a) + Values(b);
  }

  /** The map loses exactly the deleted value. */
  lemma DeleteValues<K, V>(m: InsertionMap<K, V>, k: K)
    ensures multiset(Values(m)) == multiset(Values(Delete(m, k)))
                                   + if Has(m, k) then multiset{Get(m, k).value} else multiset{}
  {
    if Has(m, k) {
      var i, v := IndexOf(m, k), Values(m);
      assert v == v[..i] + [v[i]] + v[i + 1..];
      assert Values(Delete(m, k)) == v[..i] + v[i + 1..];
    }
  }
}
