/** Sequences by repetition and filtering, shared by the modules that build and thin out traces. */
module Sequences {
  function Repeated<T>(x: T, n: nat): (s: seq<T>)
    ensures |s| == n && forall i | 0 <= i < n :: s[i] == x
  {
    seq(n, _ => x)
  }

  lemma RepeatedAppend<T>(x: T, n: nat)
    ensures Repeated(x, n + 1) == Repeated(x, n) + [x]
  {
  }

  lemma RepeatedConcat<T>(x: T, m: nat, n: nat)
    ensures Repeated(x, m) + Repeated(x, n) == Repeated(x, m + n)
  {
  }

  /** The elements that satisfy `p`, in order. */
  function Filter<T>(p: T -> bool, s: seq<T>): seq<T> {
    if s == [] then [] else Filter(p, s[..|s| - 1]) + if p(s[|s| - 1]) then [s[|s| - 1]] else []
  }

  lemma {:induction false} FilterMembers<T>(p: T -> bool, s: seq<T>)
    ensures forall x | x in Filter(p, s) :: p(x) && x in s
    ensures forall x | x in s && p(x) :: x in Filter(p, s)
  {
    if s != [] { FilterMembers(p, s[..|s| - 1]); }
  }

  lemma FilterAppend<T>(p: T -> bool, s: seq<T>, x: T)
    ensures Filter(p, s + [x]) == if p(x) then Filter(p, s) + [x] else Filter(p, s)
  {
    assert (s + [x])[..|s|] == s;
  }

  lemma {:induction false} FilterConcat<T>(p: T -> bool, a: seq<T>, b: seq<T>)
    ensures Filter(p, a + b) == Filter(p, a) + Filter(p, b)
  {
    if b == [] {
      assert a + b == a;
    } else {
      assert (a + b)[..|a + b| - 1] == a + b[..|b| - 1];
      FilterConcat(p, a, b[..|b| - 1]);
    }
  }

  lemma {:induction false} FilterNone<T>(p: T -> bool, s: seq<T>)
    requires forall i | 0 <= i < |s| :: !p(s[i])
    ensures Filter(p, s) == []
  {
    if s != [] {
      FilterNone(p, s[..|s| - 1]);
    }
  }

  lemma {:induction false} FilterAll<T>(p: T -> bool, s: seq<T>)
    requires forall i | 0 <= i < |s| :: p(s[i])
    ensures Filter(p, s) == s
  {
    if s != [] {
      FilterAll(p, s[..|s| - 1]);
    }
  }

  /** The first element of the selection. */
  lemma FilterFirst<T>(p: T -> bool, s: seq<T>, f: nat)
    requires f < |s| && p(s[f]) && forall j | 0 <= j < f :: !p(s[j])
    ensures Filter(p, s) != [] && Filter(p, s)[0] == s[f]
  {
    FilterNone(p, s[..f]);
    FilterAppend(p, s[..f], s[f]);
    assert s[..f] + [s[f]] + s[f + 1..] == s;
    FilterConcat(p, s[..f] + [s[f]], s[f + 1..]);
  }

  lemma {:induction false} FilterCounts<T>(p: T -> bool, s: seq<T>, x: T)
    ensures multiset(Filter(p, s))[x] == if p(x) then multiset(s)[x] else 0
  {
    if s != [] {
      var early, last := s[..|s| - 1], s[|s| - 1];
      FilterCounts(p, early, x);
      assert s == early + [last];
    }
  }

  // -------------------------------------------------------------------- flattening

  function Flatten<T>(parts: seq<seq<T>>): seq<T> {
    if parts == [] then [] else Flatten(parts[..|parts| - 1]) + parts[|parts| - 1]
  }

  lemma FlattenAppend<T>(parts: seq<seq<T>>, part: seq<T>)
    ensures Flatten(parts + [part]) == Flatten(parts) + part
  {
    assert (parts + [part])[..|parts|] == parts;
  }

  lemma FlattenLast<T>(parts: seq<seq<T>>, early: seq<seq<T>>, last: seq<T>)
    requires parts == early + [last]
    ensures Flatten(parts) == Flatten(early) + last
  {
    FlattenAppend(early, last);
  }

  lemma InsertCounts<T>(grown: seq<T>, s: seq<T>, more: seq<T>, last: seq<T>)
    requires multiset(grown) == multiset(s) + multiset(more)
    ensures multiset(grown + last) == multiset(s + last) + multiset(more) == multiset(s + (last + more))
  {
  }

  lemma {:induction false} FlattenUpdate<T>(parts: seq<seq<T>>, i: nat, more: seq<T>)
    requires i < |parts|
    ensures multiset(Flatten(parts[i := parts[i] + more])) == multiset(Flatten(parts)) + multiset(more)
  {
    var n := |parts| - 1;
    var early, last := parts[..n], parts[n];
    if i < n {
      var earlier := early[i := early[i] + more];
      FlattenUpdate(early, i, more);
      InsertCounts(Flatten(earlier), Flatten(early), more, last);
      FlattenLast(parts[i := parts[i] + more], earlier, last);
    } else {
      InsertCounts(Flatten(early) + more, Flatten(early), more, last);
      FlattenLast(parts[i := parts[i] + more], early, last + more);
    }
  }

  // ---------------------------------------------------------------------- counting

  lemma AppendCounts<T>(s: seq<T>, x: T)
    ensures multiset(s + [x]) == multiset(s) + multiset{x}
  {
  }

  lemma FilterAppendCounts<T>(p: T -> bool, s: seq<T>, x: T)
    ensures multiset(Filter(p, s + [x])) == multiset(Filter(p, s)) + if p(x) then multiset{x} else multiset{}
  {
    FilterAppend(p, s, x);
    AppendCounts(Filter(p, s), x);
  }

  /** A predicate and its complement share out the elements. */
  lemma {:induction false} FilterSplits<T(!new)>(p: T -> bool, q: T -> bool, s: seq<T>)
    requires forall x :: q(x) == !p(x)
    ensures multiset(Filter(p, s)) + multiset(Filter(q, s)) == multiset(s)
  {
    if s != [] {
      var early, x := s[..|s| - 1], s[|s| - 1];
      assert s == early + [x];
      FilterSplits(p, q, early);
      FilterAppendCounts(p, early, x);
      FilterAppendCounts(q, early, x);
      AppendCounts(early, x);
    }
  }
}
