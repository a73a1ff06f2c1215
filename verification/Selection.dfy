/** Order statistics of a sequence of reals, and the in-place partial selection that the Rust
    standard library offers as `select_nth_unstable_by` and `sort_by`. */
module Selection {
  function CountLess(s: seq<real>, v: real): nat {
    if s == [] then 0 else (if s[0] < v then 1 else 0) + CountLess(s[1..], v)
  }

  function CountAtMost(s: seq<real>, v: real): nat {
    if s == [] then 0 else (if s[0] <= v then 1 else 0) + CountAtMost(s[1..], v)
  }

  function CountAbove(s: seq<real>, v: real): nat {
    if s == [] then 0 else (if v < s[0] then 1 else 0) + CountAbove(s[1..], v)
  }

  /** `v` is the value that sorting would put at index `k`. */
  predicate IsOrderStatistic(s: seq<real>, k: nat, v: real) {
    v in s && CountLess(s, v) <= k < CountAtMost(s, v)
  }

  predicate Ascending(s: seq<real>) {
    forall i, j | 0 <= i < j < |s| :: s[i] <= s[j]
  }

  /** Every element before `k` is at most, and every element after it at least, the one at `k`. */
  predicate PartitionedAt(s: seq<real>, k: nat) {
    && k < |s|
    && (forall i | 0 <= i < k :: s[i] <= s[k])
    && (forall i | k < i < |s| :: s[k] <= s[i])
  }

  // -------------------------------------------------------------------- counting

  lemma {:induction false} CountsAddUp(s: seq<real>, v: real)
    ensures CountAtMost(s, v) + CountAbove(s, v) == |s|
    ensures CountLess(s, v) <= CountAtMost(s, v)
  {
    if s != [] { CountsAddUp(s[1..], v); }
  }

  lemma {:induction false} CountsAreMonotone(s: seq<real>, v: real, w: real)
    requires v < w
    ensures CountAtMost(s, v) <= CountLess(s, w)
  {
    if s != [] { CountsAreMonotone(s[1..], v, w); }
  }

  lemma {:induction false} CountsConcat(a: seq<real>, b: seq<real>, v: real)
    ensures CountLess(a + b, v) == CountLess(a, v) + CountLess(b, v)
    ensures CountAtMost(a + b, v) == CountAtMost(a, v) + CountAtMost(b, v)
  {
    if a == [] {
      assert a + b == b;
    } else {
      assert (a + b)[1..] == a[1..] + b;
      CountsConcat(a[1..], b, v);
    }
  }

  /** The head of `a` and an equal element of its permutation `b`: dropping both leaves permutations. */
  lemma MatchHead<T>(a: seq<T>, b: seq<T>) returns (i: nat)
    requires a != [] && multiset(a) == multiset(b)
    ensures i < |b| && b[i] == a[0]
    ensures multiset(a[1..]) == multiset(b[..i] + b[i + 1..])
  {
    assert a[0] in multiset(b);
    i :| 0 <= i < |b| && b[i] == a[0];
    assert a == [a[0]] + a[1..];
    assert multiset(a[1..]) == multiset(a) - multiset{a[0]};
    assert b == b[..i] + [b[i]] + b[i + 1..];
    assert multiset(b[..i] + b[i + 1..]) == multiset(b) - multiset{b[i]};
  }

  lemma CountsWithout(b: seq<real>, i: nat, v: real)
    requires i < |b|
    ensures CountLess(b, v) == CountLess(b[..i] + b[i + 1..], v) + (if b[i] < v then 1 else 0)
    ensures CountAtMost(b, v) == CountAtMost(b[..i] + b[i + 1..], v) + (if b[i] <= v then 1 else 0)
  {
    CountsConcat(b[..i], b[i + 1..], v);
    CountsConcat(b[..i], b[i..], v);
    assert b == b[..i] + b[i..];
    assert b[i..][1..] == b[i + 1..];
  }

  /** Counts do not depend on the order of the elements. */
  lemma {:induction false} CountsOfPermutation(a: seq<real>, b: seq<real>, v: real)
    requires multiset(a) == multiset(b)
    ensures CountLess(a, v) == CountLess(b, v) && CountAtMost(a, v) == CountAtMost(b, v)
  {
    if a == [] {
      assert |multiset(b)| == 0;
    } else {
      var i := MatchHead(a, b);
      CountsOfPermutation(a[1..], b[..i] + b[i + 1..], v);
      CountsWithout(b, i, v);
    }
  }

  lemma {:induction false} CountBounds(s: seq<real>, v: real)
    ensures CountLess(s, v) <= |s| && CountAtMost(s, v) <= |s|
    ensures (forall i | 0 <= i < |s| :: v <= s[i]) ==> CountLess(s, v) == 0
    ensures (forall i | 0 <= i < |s| :: s[i] <= v) ==> CountAtMost(s, v) == |s|
  {
    if s != [] { CountBounds(s[1..], v); }
  }

  lemma OrderStatisticIsUnique(s: seq<real>, k: nat, v: real, w: real)
    requires IsOrderStatistic(s, k, v) && IsOrderStatistic(s, k, w)
    ensures v == w
  {
    if v < w {
      CountsAreMonotone(s, v, w);
    } else if w < v {
      CountsAreMonotone(s, w, v);
    }
  }

  lemma PartitionCounts(p: seq<real>, k: nat)
    requires PartitionedAt(p, k)
    ensures CountLess(p, p[k]) <= k < CountAtMost(p, p[k])
  {
    var v := p[k];
    assert p == p[..k] + p[k..];
    CountsConcat(p[..k], p[k..], v);
    CountBounds(p[..k], v);
    CountBounds(p[k..], v);
    assert p[k..][0] == v;
  }

  /** Whatever arrangement a selection leaves behind, the element at `k` is the order statistic. */
  lemma SelectionFindsOrderStatistic(s: seq<real>, p: seq<real>, k: nat)
    requires multiset(p) == multiset(s) && PartitionedAt(p, k)
    ensures IsOrderStatistic(s, k, p[k])
  {
    PartitionCounts(p, k);
    CountsOfPermutation(p, s, p[k]);
    assert p[k] in multiset(p);
  }

  // --------------------------------------------------------------------- sorting

  lemma ConsAscending(v: real, s: seq<real>)
    requires Ascending(s) && (s != [] ==> v <= s[0])
    ensures Ascending([v] + s)
  {
  }

  function Insert(v: real, s: seq<real>): (r: seq<real>)
    requires Ascending(s)
    ensures Ascending(r) && r != [] && r[0] == (if s == [] || v <= s[0] then v else s[0])
    ensures multiset(r) == multiset(s) + multiset{v}
  {
    if s == [] || v <= s[0] then
      ConsAscending(v, s);
      [v] + s
    else
      ConsAscending(s[0], Insert(v, s[1..]));
      assert s == [s[0]] + s[1..];
      [s[0]] + Insert(v, s[1..])
  }

  function Sorted(s: seq<real>): (r: seq<real>)
    ensures Ascending(r) && multiset(r) == multiset(s) && |r| == |s|
  {
    if s == [] then []
    else
      assert s == [s[0]] + s[1..];
      var r := Insert(s[0], Sorted(s[1..]));
      assert |r| == |multiset(r)| && |s| == |multiset(s)|;
      r
  }

  function OrderStatistic(s: seq<real>, k: nat): (v: real)
    requires k < |s|
    ensures IsOrderStatistic(s, k, v)
  {
    SelectionFindsOrderStatistic(s, Sorted(s), k);
    Sorted(s)[k]
  }

  /** Two ascending arrangements of the same values are the same sequence. */
  lemma SortedIsUnique(a: seq<real>, b: seq<real>)
    requires Ascending(a) && Ascending(b) && multiset(a) == multiset(b)
    ensures a == b
  {
    assert |a| == |multiset(a)| && |b| == |multiset(b)|;
    forall k | 0 <= k < |a| ensures a[k] == b[k] {
      SelectionFindsOrderStatistic(a, a, k);
      SelectionFindsOrderStatistic(a, b, k);
      OrderStatisticIsUnique(a, k, a[k], b[k]);
    }
  }

  // ---------------------------------------------------------- selection in place

  function Keys<T>(s: seq<T>, key: T -> real): (r: seq<real>)
    ensures |r| == |s| && forall i | 0 <= i < |s| :: r[i] == key(s[i])
  {
    seq(|s|, i requires 0 <= i < |s| => key(s[i]))
  }

  lemma KeysWithout<T>(b: seq<T>, i: nat, key: T -> real)
    requires i < |b|
    ensures multiset(Keys(b, key)) == multiset(Keys(b[..i] + b[i + 1..], key)) + multiset{key(b[i])}
  {
    var kb := Keys(b, key);
    assert Keys(b[..i] + b[i + 1..], key) == kb[..i] + kb[i + 1..];
    assert kb == kb[..i] + [kb[i]] + kb[i + 1..];
  }

  lemma {:induction false} KeysOfPermutation<T>(a: seq<T>, b: seq<T>, key: T -> real)
    requires multiset(a) == multiset(b)
    ensures multiset(Keys(a, key)) == multiset(Keys(b, key))
  {
    if a == [] {
      assert |multiset(b)| == 0;
    } else {
      var i := MatchHead(a, b);
      KeysOfPermutation(a[1..], b[..i] + b[i + 1..], key);
      KeysWithout(b, i, key);
      assert Keys(a, key) == [key(a[0])] + Keys(a[1..], key);
    }
  }

  method LeastFrom<T>(a: array<T>, i: nat, key: T -> real) returns (least: nat)
    requires i < a.Length
    ensures i <= least < a.Length
    ensures forall y | i <= y < a.Length :: key(a[least]) <= key(a[y])
  {
    least := i;
    for j := i + 1 to a.Length
      invariant i <= least < j
      invariant forall y | i <= y < j :: key(a[least]) <= key(a[y])
    {
      if key(a[j]) < key(a[least]) {
        least := j;
      }
    }
  }

  method Swap<T>(a: array<T>, i: nat, j: nat)
    requires i < a.Length && j < a.Length
    modifies a
    ensures multiset(a[..]) == old(multiset(a[..]))
    ensures a[..] == old(a[..])[i := old(a[j])][j := old(a[i])]
  {
    a[i], a[j] := a[j], a[i];
  }

  /** The elements before `i` are in order of key and no later element has a smaller key. */
  ghost predicate FrontIsLeast<T>(s: seq<T>, i: nat, key: T -> real) {
    forall x, y | 0 <= x < i && x < y < |s| :: key(s[x]) <= key(s[y])
  }

  lemma FrontGrows<T>(s: seq<T>, i: nat, least: nat, key: T -> real)
    requires i <= least < |s| && FrontIsLeast(s, i, key)
    requires forall y | i <= y < |s| :: key(s[least]) <= key(s[y])
    ensures FrontIsLeast(s[i := s[least]][least := s[i]], i + 1, key)
  {
  }

  /** Moves the `k + 1` elements of least key to the front, in order of key. */
  method SelectLeast<T>(a: array<T>, k: nat, key: T -> real)
    requires k < a.Length
    modifies a
    ensures multiset(a[..]) == old(multiset(a[..]))
    ensures Ascending(Keys(a[..k + 1], key))
    ensures PartitionedAt(Keys(a[..], key), k)
  {
    for i := 0 to k + 1
      invariant multiset(a[..]) == old(multiset(a[..]))
      invariant FrontIsLeast(a[..], i, key)
    {
      var least := LeastFrom(a, i, key);
      ghost var before := a[..];
      assert forall y | i <= y < |before| :: before[y] == a[y];
      FrontGrows(before, i, least, key);
      Swap(a, i, least);
    }
  }
}
