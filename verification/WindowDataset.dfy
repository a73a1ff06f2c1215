/** Training windows over telemetry dumps: a lazy index by running totals and bisection, against
    the eager list of all windows. */
module WindowDataset {
  import opened Wrappers
  import opened Sequences

  /** An input of `seqLen` consecutive vectors and the same shifted by one. */
  datatype Window<T> = Window(x: seq<T>, y: seq<T>)

  function WindowCount(n: nat, seqLen: nat): nat {
    if seqLen < n then n - seqLen else 0
  }

  /** All windows of one dump, in order. */
  function Windows<T>(dump: seq<T>, seqLen: nat): (w: seq<Window<T>>)
    ensures |w| == WindowCount(|dump|, seqLen)
  {
    seq(WindowCount(|dump|, seqLen), i requires 0 <= i < WindowCount(|dump|, seqLen) =>
      Window(dump[i..i + seqLen], dump[i + 1..i + seqLen + 1]))
  }

  /** Row by row: a dump has a window wherever `seqLen` rows and one more fit, and its targets are its
      inputs one row later. */
  lemma WindowRows<T>(dump: seq<T>, seqLen: nat, i: nat)
    ensures i < |Windows(dump, seqLen)| <==> i + seqLen < |dump|
    ensures i < |Windows(dump, seqLen)| ==>
              var w := Windows(dump, seqLen)[i];
              && |w.x| == |w.y| == seqLen
              && forall j | 0 <= j < seqLen :: w.x[j] == dump[i + j] && w.y[j] == dump[i + j + 1]
  {
  }

  /** The windows of every dump, dump after dump. */
  function Eager<T>(dumps: seq<seq<T>>, seqLen: nat): seq<Window<T>> {
    if dumps == [] then []
    else Eager(dumps[..|dumps| - 1], seqLen) + Windows(dumps[|dumps| - 1], seqLen)
  }

  function SequenceCount<T>(dumps: seq<seq<T>>, seqLen: nat): nat {
    if dumps == [] then 0
    else SequenceCount(dumps[..|dumps| - 1], seqLen) + WindowCount(|dumps[|dumps| - 1]|, seqLen)
  }

  /** Materializes the windows of one dump; a dump without any is an error. */
  method MakeSequences<T>(data: seq<T>, seqLen: nat) returns (r: Option<seq<Window<T>>>)
    ensures r.None? <==> Windows(data, seqLen) == []
    ensures r.Some? ==> r.value == Windows(data, seqLen)
  {
    if |data| <= seqLen {
      return None;
    }
    var n := |data| - seqLen;
    var x := new seq<T>[n](_ => []);
    var y := new seq<T>[n](_ => []);
    for i := 0 to n
      invariant forall k | 0 <= k < i :: x[k] == data[k..k + seqLen] && y[k] == data[k + 1..k + seqLen + 1]
    {
      x[i] := data[i..i + seqLen];
      y[i] := data[i + 1..i + seqLen + 1];
    }
    var xs, ys := x[..], y[..];
    r := Some(seq(n, i requires 0 <= i < n => Window(xs[i], ys[i])));
  }

  function LongerThan<T>(seqLen: nat): seq<T> -> bool {
    (dump: seq<T>) => seqLen < |dump|
  }

  lemma {:induction false} EagerCount<T>(dumps: seq<seq<T>>, seqLen: nat)
    ensures |Eager(dumps, seqLen)| == SequenceCount(dumps, seqLen)
  {
    if dumps != [] { EagerCount(dumps[..|dumps| - 1], seqLen); }
  }

  /** Dumps too short for a window contribute nothing. */
  lemma {:induction false} ShortDumpsAreEmpty<T>(dumps: seq<seq<T>>, seqLen: nat)
    ensures Eager(Filter(LongerThan(seqLen), dumps), seqLen) == Eager(dumps, seqLen)
  {
    if dumps != [] {
      var n := |dumps| - 1;
      ShortDumpsAreEmpty(dumps[..n], seqLen);
      var kept := Filter(LongerThan(seqLen), dumps[..n]);
      if seqLen < |dumps[n]| {
        assert (kept + [dumps[n]])[..|kept|] == kept;
      } else {
        assert kept + [] == kept;
        assert Windows(dumps[n], seqLen) == [];
        assert Eager(dumps[..n], seqLen) + [] == Eager(dumps[..n], seqLen);
      }
    }
  }

  lemma {:induction false} EagerConcat<T>(a: seq<seq<T>>, b: seq<seq<T>>, seqLen: nat)
    ensures Eager(a + b, seqLen) == Eager(a, seqLen) + Eager(b, seqLen)
  {
    if b == [] {
      assert a + b == a;
    } else {
      var n := |b| - 1;
      assert (a + b)[..|a + b| - 1] == a + b[..n];
      EagerConcat(a, b[..n], seqLen);
    }
  }

  /** The index of a window's dump and its place inside that dump determine its position. */
  lemma WindowAt<T>(dumps: seq<seq<T>>, seqLen: nat, file: nat, offset: nat)
    requires file < |dumps| && offset < WindowCount(|dumps[file]|, seqLen)
    ensures var index := SequenceCount(dumps[..file], seqLen) + offset;
            && index < |Eager(dumps, seqLen)|
            && Eager(dumps, seqLen)[index] == Windows(dumps[file], seqLen)[offset]
  {
    var head, tail := dumps[..file + 1], dumps[file + 1..];
    assert dumps == head + tail && head[..file] == dumps[..file];
    EagerConcat(head, tail, seqLen);
    EagerCount(dumps[..file], seqLen);
  }

  lemma {:induction false} CountsAscend<T>(dumps: seq<seq<T>>, seqLen: nat, i: nat, j: nat)
    requires i <= j <= |dumps|
    ensures SequenceCount(dumps[..i], seqLen) <= SequenceCount(dumps[..j], seqLen)
  {
    if i < j {
      assert dumps[..j][..j - 1] == dumps[..j - 1];
      CountsAscend(dumps, seqLen, i, j - 1);
    }
  }

  /** No window is enumerated twice: different places have different positions. */
  lemma PositionsAreDistinct<T>(dumps: seq<seq<T>>, seqLen: nat, f: nat, o: nat, g: nat, p: nat)
    requires f < |dumps| && o < WindowCount(|dumps[f]|, seqLen)
    requires g < |dumps| && p < WindowCount(|dumps[g]|, seqLen)
    requires SequenceCount(dumps[..f], seqLen) + o == SequenceCount(dumps[..g], seqLen) + p
    ensures f == g && o == p
  {
    assert dumps[..f + 1][..f] == dumps[..f] && dumps[..g + 1][..g] == dumps[..g];
    if f < g {
      CountsAscend(dumps, seqLen, f + 1, g);
    } else if g < f {
      CountsAscend(dumps, seqLen, g + 1, f);
    }
  }

  /** Where a NumPy slice bound falls in a sequence of length `n`: a negative bound counts from the end. */
  function SliceBound(bound: int, n: nat): (b: nat)
    ensures b <= n
  {
    if 0 <= bound then Min(bound, n) else if bound + n < 0 then 0 else bound + n
  }

  /** `s[start:stop]`, which is empty when the bounds cross. */
  function Slice<T>(s: seq<T>, start: int, stop: int): seq<T> {
    var low, high := SliceBound(start, |s|), SliceBound(stop, |s|);
    if low <= high then s[low..high] else []
  }

  /** What the lookup slices out of a dump at `offset`. */
  function SlicedWindow<T>(dump: seq<T>, seqLen: nat, offset: int): Window<T> {
    Window(Slice(dump, offset, offset + seqLen), Slice(dump, offset + 1, offset + seqLen + 1))
  }

  /** The lookup of the data set, in terms of the eager list. A negative index reaches the first
      dump that is long enough and slices it as it stands. */
  function Item<T>(dumps: seq<seq<T>>, seqLen: nat, index: int): Option<Window<T>> {
    var kept := Filter(LongerThan(seqLen), dumps);
    if index < 0 then if kept == [] then None else Some(SlicedWindow(kept[0], seqLen, index))
    else if index < |Eager(dumps, seqLen)| then Some(Eager(dumps, seqLen)[index])
    else None
  }

  class TelemetryWindowDataset<T> {
    const seqLen: nat
    const source: seq<seq<T>>
    const arrays: seq<seq<T>>
    const ends: seq<nat>

    ghost predicate Valid() {
      && arrays == Filter(LongerThan(seqLen), source)
      && |ends| == |arrays|
      && forall k | 0 <= k < |ends| :: ends[k] == SequenceCount(arrays[..k + 1], seqLen)
    }

    constructor (sourceArrays: seq<seq<T>>, seqLen: nat)
      ensures Valid() && source == sourceArrays && this.seqLen == seqLen
    {
      var kept := Filter(LongerThan<T>(seqLen), sourceArrays);
      FilterMembers(LongerThan<T>(seqLen), sourceArrays);
      var totals: seq<nat> := [];
      var total := 0;
      for i := 0 to |kept|
        invariant |totals| == i && total == SequenceCount(kept[..i], seqLen)
        invariant forall k | 0 <= k < i :: totals[k] == SequenceCount(kept[..k + 1], seqLen)
      {
        assert kept[i] in kept;
        assert kept[..i + 1][..i] == kept[..i];
        total := total + (|kept[i]| - seqLen);
        totals := totals + [total];
      }
      this.seqLen, source, arrays, ends := seqLen, sourceArrays, kept, totals;
    }

    method Len() returns (n: nat)
      requires Valid()
      ensures n == |Eager(source, seqLen)| == SequenceCount(source, seqLen)
    {
      ShortDumpsAreEmpty(source, seqLen);
      EagerCount(source, seqLen);
      EagerCount(arrays, seqLen);
      assert arrays[..|arrays|] == arrays;
      n := if |ends| > 0 then ends[|ends| - 1] else 0;
    }

    lemma EndsAscend(i: nat, j: nat)
      requires Valid() && i <= j < |ends|
      ensures ends[i] <= ends[j]
    {
      CountsAscend(arrays, seqLen, i + 1, j + 1);
    }

    /** `bisect_right` on the running totals. */
    method BisectRight(index: int) returns (k: nat)
      requires Valid()
      ensures k <= |ends|
      ensures forall i | 0 <= i < k :: ends[i] <= index
      ensures forall i | k <= i < |ends| :: index < ends[i]
    {
      var low, high := 0, |ends|;
      while low < high
        invariant 0 <= low <= high <= |ends|
        invariant forall i | 0 <= i < low :: ends[i] <= index
        invariant forall i | high <= i < |ends| :: index < ends[i]
      {
        var mid := (low + high) / 2;
        if index < ends[mid] {
          forall i | mid <= i < |ends| ensures index < ends[i] {
            EndsAscend(mid, i);
          }
          high := mid;
        } else {
          forall i | 0 <= i <= mid ensures ends[i] <= index {
            EndsAscend(i, mid);
          }
          low := mid + 1;
        }
      }
      k := low;
    }

    lemma PastTheEnd(index: nat)
      requires Valid() && forall i | 0 <= i < |ends| :: ends[i] <= index
      ensures Item(source, seqLen, index) == None
    {
      ShortDumpsAreEmpty(source, seqLen);
      EagerCount(arrays, seqLen);
      assert arrays[..|arrays|] == arrays;
      assert |ends| > 0 ==> ends[|ends| - 1] <= index;
    }

    function PreviousEnd(file: nat): nat
      requires file < |ends|
    {
      if file == 0 then 0 else ends[file - 1]
    }

    lemma Located(file: nat, index: nat)
      requires Valid() && file < |ends| && PreviousEnd(file) <= index < ends[file]
      ensures Item(source, seqLen, index) == Some(SlicedWindow(arrays[file], seqLen, index - PreviousEnd(file)))
    {
      ShortDumpsAreEmpty(source, seqLen);
      assert arrays[..0] == [];
      assert arrays[..file + 1][..file] == arrays[..file];
      assert PreviousEnd(file) == SequenceCount(arrays[..file], seqLen);
      assert ends[file] == PreviousEnd(file) + WindowCount(|arrays[file]|, seqLen);
      WindowAt(arrays, seqLen, file, index - PreviousEnd(file));
      SliceInside(arrays[file], seqLen, index - PreviousEnd(file));
    }

    /** The lazy lookup is the eager list; past its end it is an index error. */
    method GetItem(index: int) returns (item: Option<Window<T>>)
      requires Valid()
      ensures item == Item(source, seqLen, index)
    {
      var fileIndex := BisectRight(index);
      assert fileIndex > 0 ==> ends[0] <= index;
      if fileIndex >= |arrays| {
        if index >= 0 { PastTheEnd(index); }
        return None;
      }
      if index >= 0 { Located(fileIndex, index); }
      var previousEnd := if fileIndex == 0 then 0 else ends[fileIndex - 1];
      var offset := index - previousEnd;
      var dump := arrays[fileIndex];
      item := Some(Window(Slice(dump, offset, offset + seqLen), Slice(dump, offset + 1, offset + seqLen + 1)));
    }
  }

  lemma SliceInside<T>(dump: seq<T>, seqLen: nat, offset: nat)
    requires offset < WindowCount(|dump|, seqLen)
    ensures SlicedWindow(dump, seqLen, offset) == Windows(dump, seqLen)[offset]
  {
  }

  /** The dump that a negative index slices is the first with more than `seqLen` rows. */
  lemma NegativeItem<T>(dumps: seq<seq<T>>, seqLen: nat, index: int, first: nat)
    requires index < 0 && first <= |dumps|
    requires forall j | 0 <= j < first :: |dumps[j]| <= seqLen
    requires first < |dumps| ==> seqLen < |dumps[first]|
    ensures Item(dumps, seqLen, index)
         == if first < |dumps| then Some(SlicedWindow(dumps[first], seqLen, index)) else None
  {
    if first < |dumps| {
      FilterFirst(LongerThan<T>(seqLen), dumps, first);
    } else {
      FilterNone(LongerThan<T>(seqLen), dumps);
    }
  }

  /** A negative index finds a window exactly when it reaches back more than `seqLen + 1` rows and no
      further than the dump; otherwise a part of what it returns has the wrong length. */
  lemma NegativeIndex<T>(dump: seq<T>, seqLen: nat, back: int)
    requires 0 < seqLen < |dump| && 0 < back
    ensures var w := SlicedWindow(dump, seqLen, -back);
            if seqLen + 1 < back <= |dump| then w == Windows(dump, seqLen)[|dump| - back]
            else |w.x| != seqLen || |w.y| != seqLen
  {
  }

  // ---------------------------------------------------------- train and validation

  /** Python's `int`, which truncates towards zero. */
  function Truncate(x: real): int {
    if x >= 0.0 then x.Floor else -(-x).Floor
  }

  function Max(a: int, b: int): int {
    if a < b then b else a
  }

  function SplitFile(n: nat, valSplit: real): int {
    Max(1, Min(n - 1, Truncate((n as real) * (1.0 - valSplit))))
  }

  function ValidationCount(n: nat, valSplit: real): int {
    Max(1, Truncate((n as real) * valSplit))
  }

  /** `n` is the whole part of `x` if that lies within the bounds, and otherwise the nearer bound. */
  predicate WholePart(n: int, x: real, low: int, high: int) {
    low <= n <= high && (n as real <= x || n == low) && (x < (n + 1) as real || n == high)
  }

  /** The training half of `n` dumps is the whole part of its share, but at least one dump and not all. */
  lemma SplitFileMeaning(n: nat, valSplit: real)
    requires 2 <= n
    ensures WholePart(SplitFile(n, valSplit), (n as real) * (1.0 - valSplit), 1, n - 1)
  {
  }

  /** Of `n` windows at least one is kept for validation, and otherwise the whole part of their share. */
  lemma TrainCountMeaning(n: nat, valSplit: real)
    ensures var v := ValidationCount(n, valSplit);
            && 1 <= v && (v as real <= (n as real) * valSplit || v == 1) && (n as real) * valSplit < (v + 1) as real
            && TrainCount(n, valSplit) == if v < n then n - v else 0
  {
  }

  /** Some consecutive items of a data set: all of them, or a PyTorch `Subset`. */
  datatype Portion<T> = Portion(dataset: TelemetryWindowDataset<T>, first: nat, count: nat) {
    ghost predicate Valid() {
      dataset.Valid() && first + count <= |Eager(dataset.source, dataset.seqLen)|
    }

    ghost function Items(): (items: seq<Window<T>>)
      requires Valid()
      ensures |items| == count
    {
      Eager(dataset.source, dataset.seqLen)[first..first + count]
    }
  }

  method Whole<T>(dumps: seq<seq<T>>, seqLen: nat) returns (p: Portion<T>)
    ensures p.dataset.Valid() && p.dataset.source == dumps && p.dataset.seqLen == seqLen
    ensures p.Valid() && p.first == 0 && p.Items() == Eager(dumps, seqLen)
  {
    var dataset := new TelemetryWindowDataset(dumps, seqLen);
    var n := dataset.Len();
    p := Portion(dataset, 0, n);
  }

  function NonNegative(n: int): nat {
    if n < 0 then 0 else n
  }

  /** The number of training windows when a single dump is split by windows. */
  function TrainCount(n: nat, valSplit: real): nat {
    NonNegative(n - ValidationCount(n, valSplit))
  }

  /** The two halves `x` and `y` if both have items; an empty half is an error. */
  ghost predicate Halves<T>(r: Option<(Portion<T>, Portion<T>)>, x: seq<Window<T>>, y: seq<Window<T>>) {
    && (r.None? <==> x == [] || y == [])
    && (r.Some? ==> && r.value.0.Valid() && r.value.0.Items() == x
                    && r.value.1.Valid() && r.value.1.Items() == y)
  }

  function Both<T>(x: Portion<T>, y: Portion<T>): Option<(Portion<T>, Portion<T>)> {
    if x.count == 0 || y.count == 0 then None else Some((x, y))
  }

  method SplitForTraining<T>(dumps: seq<seq<T>>, seqLen: nat, valSplit: real)
    returns (r: Option<(Portion<T>, Portion<T>)>)
    ensures |dumps| >= 2 ==>
              var s := SplitFile(|dumps|, valSplit);
              1 <= s < |dumps| && Halves(r, Eager(dumps[..s], seqLen), Eager(dumps[s..], seqLen))
    ensures |dumps| < 2 ==>
              var all := Eager(dumps, seqLen);
              var n := TrainCount(|all|, valSplit);
              n <= |all| && Halves(r, all[..n], all[n..])
  {
    if |dumps| >= 2 {
      var s := SplitFile(|dumps|, valSplit);
      var train := Whole(dumps[..s], seqLen);
      var validation := Whole(dumps[s..], seqLen);
      r := Both(train, validation);
    } else {
      r := SplitWindows(dumps, seqLen, valSplit);
    }
  }

  /** The fallback for a single dump. */
  method SplitWindows<T>(dumps: seq<seq<T>>, seqLen: nat, valSplit: real)
    returns (r: Option<(Portion<T>, Portion<T>)>)
    ensures var all := Eager(dumps, seqLen);
            var n := TrainCount(|all|, valSplit);
            n <= |all| && Halves(r, all[..n], all[n..])
  {
    var full := Whole(dumps, seqLen);
    var nTrain := NonNegative(full.count - ValidationCount(full.count, valSplit));
    ghost var all := Eager(dumps, seqLen);
    assert full.count == |all|;
    var train := Portion(full.dataset, 0, nTrain);
    var validation := Portion(full.dataset, nTrain, full.count - nTrain);
    assert train.Items() == all[..nTrain] && validation.Items() == all[nTrain..];
    r := Both(train, validation);
  }

  /** The split loses nothing: the halves of two or more dumps are consecutive windows of all. */
  lemma SplitIsComplete<T>(dumps: seq<seq<T>>, seqLen: nat, s: nat)
    requires s <= |dumps|
    ensures Eager(dumps[..s], seqLen) + Eager(dumps[s..], seqLen) == Eager(dumps, seqLen)
  {
    assert dumps[..s] + dumps[s..] == dumps;
    EagerConcat(dumps[..s], dumps[s..], seqLen);
  }

  lemma WindowsAreInside<T>(dump: seq<T>, seqLen: nat, i: nat)
    requires i + 1 < WindowCount(|dump|, seqLen)
    ensures Windows(dump, seqLen)[i].y == Windows(dump, seqLen)[i + 1].x
  {
  }

  /** With a single dump the split cannot keep the halves apart: the first validation input is
      exactly the target of the last training window. */
  lemma SingleDumpSharesRows<T>(dump: seq<T>, seqLen: nat, nTrain: nat)
    requires 0 < nTrain < |Eager([dump], seqLen)|
    ensures Eager([dump], seqLen)[nTrain - 1].y == Eager([dump], seqLen)[nTrain].x
  {
    assert [dump][..0] == [];
    assert Eager([dump], seqLen) == Windows(dump, seqLen);
    WindowsAreInside(dump, seqLen, nTrain - 1);
  }
}
