/** Folding performance entries into interactions: the longest entry of an interaction defines
    its latency and its three components. */
module InteractionFold {
  import opened Wrappers
  import opened InsertionMaps
  import Selection

  /** A missing timing field reads as zero, and an id of zero means no interaction at all. */
  datatype Entry = Entry(interactionId: nat, startTime: real, processingStart: real, processingEnd: real,
                         duration: real, cancelable: bool)

  datatype Interaction = Interaction(totalMs: nat, inputDelayMs: nat, processingMs: nat, presentationMs: nat,
                                     entryCount: nat, cancelable: bool)

  datatype FoldState = FoldState(interactions: InsertionMap<nat, Interaction>, dropped: nat)

  const MAX_TRACKED_INTERACTIONS := 256
  const MIN_INTERACTIONS_FOR_PERCENTILE := 50
  const NOTHING_FOLDED := FoldState([], 0)

  /** `Math.round` */
  function Round(x: real): int {
    (x + 0.5).Floor
  }

  function NonNegative(x: int): nat {
    if x < 0 then 0 else x
  }

  function TotalMs(e: Entry): nat {
    NonNegative(Round(e.duration))
  }

  function Measured(e: Entry, entryCount: nat): Interaction {
    Interaction(TotalMs(e),
                NonNegative(Round(e.processingStart - e.startTime)),
                NonNegative(Round(e.processingEnd - e.processingStart)),
                NonNegative(Round(e.startTime + (TotalMs(e) as real) - e.processingEnd)),
                entryCount,
                e.cancelable)
  }

  function FoldOne(s: FoldState, e: Entry): FoldState {
    var id, prior := e.interactionId, Get(s.interactions, e.interactionId);
    if id == 0 then s
    else if |s.interactions| >= MAX_TRACKED_INTERACTIONS && prior.None? then s.(dropped := s.dropped + 1)
    else if prior.Some? && TotalMs(e) <= prior.value.totalMs then
      s.(interactions := Set(s.interactions, id, prior.value.(entryCount := prior.value.entryCount + 1)))
    else
      s.(interactions := Set(s.interactions, id, Measured(e, if prior.Some? then prior.value.entryCount + 1 else 1)))
  }

  function Fold(s: FoldState, entries: seq<Entry>): FoldState {
    if entries == [] then s else FoldOne(Fold(s, entries[..|entries| - 1]), entries[|entries| - 1])
  }

  /** The fold state that a page keeps and every batch of entries updates in place. */
  class FoldedInteractions {
    var interactions: InsertionMap<nat, Interaction>
    var dropped: nat

    ghost function State(): FoldState
      reads this
    {
      FoldState(interactions, dropped)
    }

    constructor ()
      ensures State() == NOTHING_FOLDED
    {
      interactions, dropped := [], 0;
    }

    method FoldInteractions(entries: seq<Entry>)
      modifies this
      ensures State() == Fold(old(State()), entries)
    {
      for i := 0 to |entries|
        invariant State() == Fold(old(State()), entries[..i])
      {
        assert entries[..i + 1][..i] == entries[..i];
        FoldEntry(entries[i]);
      }
      assert entries[..|entries|] == entries;
    }

    method FoldEntry(entry: Entry)
      modifies this
      ensures State() == FoldOne(old(State()), entry)
    {
      var id := entry.interactionId;
      if id == 0 {
        return;
      }
      if |interactions| >= MAX_TRACKED_INTERACTIONS && !Has(interactions, id) {
        dropped := dropped + 1;
        return;
      }
      var duration := TotalMs(entry);
      var prior := Get(interactions, id);
      if prior.Some? && prior.value.totalMs >= duration {
        interactions := Set(interactions, id, prior.value.(entryCount := prior.value.entryCount + 1));
        return;
      }
      interactions := Set(interactions, id, Measured(entry, if prior.Some? then prior.value.entryCount + 1 else 1));
    }

    method ComponentTotals() returns (inputDelay: nat, processing: nat, presentation: nat)
      ensures inputDelay == Sum(interactions, (i: Interaction) => i.inputDelayMs)
      ensures processing == Sum(interactions, (i: Interaction) => i.processingMs)
      ensures presentation == Sum(interactions, (i: Interaction) => i.presentationMs)
    {
      inputDelay, processing, presentation := 0, 0, 0;
      for k := 0 to |interactions|
        invariant inputDelay == Sum(interactions[..k], (i: Interaction) => i.inputDelayMs)
        invariant processing == Sum(interactions[..k], (i: Interaction) => i.processingMs)
        invariant presentation == Sum(interactions[..k], (i: Interaction) => i.presentationMs)
      {
        assert interactions[..k + 1][..k] == interactions[..k];
        inputDelay := inputDelay + interactions[k].1.inputDelayMs;
        processing := processing + interactions[k].1.processingMs;
        presentation := presentation + interactions[k].1.presentationMs;
      }
      assert interactions[..|interactions|] == interactions;
    }
  }

  // ---------------------------------------------------------------- batch by batch

  lemma {:induction false} FoldsBatchByBatch(s: FoldState, a: seq<Entry>, b: seq<Entry>)
    ensures Fold(s, a + b) == Fold(Fold(s, a), b)
  {
    if b == [] {
      assert a + b == a;
    } else {
      assert (a + b)[..|a + b| - 1] == a + b[..|b| - 1];
      FoldsBatchByBatch(s, a, b[..|b| - 1]);
    }
  }

  // -------------------------------------------------------------- what is tracked

  /** The nonzero ids in order of first appearance. */
  function DistinctIds(entries: seq<Entry>): seq<nat> {
    if entries == [] then []
    else
      var ids := DistinctIds(entries[..|entries| - 1]);
      var id := entries[|entries| - 1].interactionId;
      if id == 0 || id in ids then ids else ids + [id]
  }

  function Tracked(entries: seq<Entry>): seq<nat> {
    var ids := DistinctIds(entries);
    if |ids| <= MAX_TRACKED_INTERACTIONS then ids else ids[..MAX_TRACKED_INTERACTIONS]
  }

  function KeyList<V>(m: InsertionMap<nat, V>): (k: seq<nat>)
    ensures |k| == |m| && forall i | 0 <= i < |m| :: k[i] == m[i].0
  {
    seq(|m|, i requires 0 <= i < |m| => m[i].0)
  }

  lemma {:induction false} DistinctIdsAreDistinct(entries: seq<Entry>)
    ensures forall i, j | 0 <= i < j < |DistinctIds(entries)| :: DistinctIds(entries)[i] != DistinctIds(entries)[j]
    ensures forall id | id in DistinctIds(entries) :: id != 0
    ensures forall i | 0 <= i < |entries| && entries[i].interactionId != 0 ::
              entries[i].interactionId in DistinctIds(entries)
  {
    if entries != [] { DistinctIdsAreDistinct(entries[..|entries| - 1]); }
  }

  lemma SetKeys<V>(m: InsertionMap<nat, V>, id: nat, v: V)
    ensures KeyList(Set(m, id, v)) == if Has(m, id) then KeyList(m) else KeyList(m) + [id]
  {
  }

  lemma HasKey<V>(m: InsertionMap<nat, V>, id: nat)
    ensures Has(m, id) <==> id in KeyList(m)
  {
    if Has(m, id) {
      assert KeyList(m)[IndexOf(m, id)] == id;
    }
  }

  lemma FoldOneKeys(s: FoldState, e: Entry)
    ensures KeyList(FoldOne(s, e).interactions)
         == if e.interactionId == 0 || Has(s.interactions, e.interactionId)
               || |s.interactions| >= MAX_TRACKED_INTERACTIONS
            then KeyList(s.interactions) else KeyList(s.interactions) + [e.interactionId]
  {
    var m, id := s.interactions, e.interactionId;
    if Has(m, id) {
      var prior := m[IndexOf(m, id)].1;
      SetKeys(m, id, prior.(entryCount := prior.entryCount + 1));
      SetKeys(m, id, Measured(e, prior.entryCount + 1));
    } else {
      SetKeys(m, id, Measured(e, 1));
    }
  }

  lemma TrackedStep(entries: seq<Entry>)
    requires entries != []
    ensures var early, id := Tracked(entries[..|entries| - 1]), entries[|entries| - 1].interactionId;
            Tracked(entries)
            == if id == 0 || id in early || |early| >= MAX_TRACKED_INTERACTIONS then early else early + [id]
  {
  }

  /** The tracked ids are the first 256 distinct nonzero ones, in order of appearance. */
  lemma {:induction false} TracksFirstIds(entries: seq<Entry>)
    ensures KeyList(Fold(NOTHING_FOLDED, entries).interactions) == Tracked(entries)
    ensures var ids := DistinctIds(entries); Tracked(entries) == if |ids| <= 256 then ids else ids[..256]
  {
    if entries == [] {
    } else {
      var n := |entries| - 1;
      var s := Fold(NOTHING_FOLDED, entries[..n]);
      TracksFirstIds(entries[..n]);
      HasKey(s.interactions, entries[n].interactionId);
      FoldOneKeys(s, entries[n]);
      TrackedStep(entries);
    }
  }

  // ------------------------------------------------------------- what is recorded

  function CountId(entries: seq<Entry>, id: nat): nat {
    if entries == [] then 0
    else CountId(entries[..|entries| - 1], id) + if entries[|entries| - 1].interactionId == id then 1 else 0
  }

  /** Entry `i` is the earliest of the longest entries of `id`. */
  predicate IsWorst(entries: seq<Entry>, id: nat, i: nat) {
    && i < |entries| && entries[i].interactionId == id
    && forall j | 0 <= j < |entries| && entries[j].interactionId == id ::
         TotalMs(entries[j]) <= TotalMs(entries[i]) && (j < i ==> TotalMs(entries[j]) < TotalMs(entries[i]))
  }

  ghost predicate Records(entries: seq<Entry>, id: nat, v: Interaction) {
    exists i: nat :: IsWorst(entries, id, i) && v == Measured(entries[i], CountId(entries, id))
  }

  ghost predicate RecordsAll(entries: seq<Entry>, m: InsertionMap<nat, Interaction>) {
    forall k | 0 <= k < |m| :: Records(entries, m[k].0, m[k].1)
  }

  lemma RecordsOther(entries: seq<Entry>, e: Entry, id: nat, v: Interaction)
    requires Records(entries, id, v) && e.interactionId != id
    ensures Records(entries + [e], id, v)
  {
    var i: nat :| IsWorst(entries, id, i) && v == Measured(entries[i], CountId(entries, id));
    assert (entries + [e])[..|entries|] == entries;
    assert IsWorst(entries + [e], id, i);
  }

  lemma RecordsKept(entries: seq<Entry>, e: Entry, id: nat, v: Interaction)
    requires Records(entries, id, v) && e.interactionId == id && TotalMs(e) <= v.totalMs
    ensures Records(entries + [e], id, v.(entryCount := v.entryCount + 1))
  {
    var i: nat :| IsWorst(entries, id, i) && v == Measured(entries[i], CountId(entries, id));
    assert (entries + [e])[..|entries|] == entries;
    assert IsWorst(entries + [e], id, i);
  }

  lemma RecordsReplaced(entries: seq<Entry>, e: Entry, id: nat, v: Interaction)
    requires Records(entries, id, v) && e.interactionId == id && v.totalMs < TotalMs(e)
    ensures Records(entries + [e], id, Measured(e, v.entryCount + 1))
  {
    var i: nat :| IsWorst(entries, id, i) && v == Measured(entries[i], CountId(entries, id));
    assert (entries + [e])[..|entries|] == entries;
    assert IsWorst(entries + [e], id, |entries|);
  }

  lemma {:induction false} CountOfAbsent(entries: seq<Entry>, id: nat)
    requires forall i | 0 <= i < |entries| :: entries[i].interactionId != id
    ensures CountId(entries, id) == 0
  {
    if entries != [] { CountOfAbsent(entries[..|entries| - 1], id); }
  }

  lemma RecordsFirst(entries: seq<Entry>, e: Entry, id: nat)
    requires e.interactionId == id && forall i | 0 <= i < |entries| :: entries[i].interactionId != id
    ensures Records(entries + [e], id, Measured(e, 1))
  {
    assert (entries + [e])[..|entries|] == entries;
    CountOfAbsent(entries, id);
    assert IsWorst(entries + [e], id, |entries|);
  }

  lemma StepRecords(entries: seq<Entry>, e: Entry, s: FoldState)
    requires DistinctKeys(s.interactions) && RecordsAll(entries, s.interactions)
    requires forall k | 0 <= k < |s.interactions| :: s.interactions[k].0 != 0
    requires e.interactionId != 0 && !Has(s.interactions, e.interactionId)
             && |s.interactions| < MAX_TRACKED_INTERACTIONS ==>
               forall i | 0 <= i < |entries| :: entries[i].interactionId != e.interactionId
    ensures RecordsAll(entries + [e], FoldOne(s, e).interactions)
  {
    var m, id := s.interactions, e.interactionId;
    var after := FoldOne(s, e).interactions;
    forall k | 0 <= k < |after| ensures Records(entries + [e], after[k].0, after[k].1) {
      if after[k].0 != id {
        assert after[k] == m[k];
        RecordsOther(entries, e, m[k].0, m[k].1);
      } else if k < |m| && m[k].0 == id {
        assert k == IndexOf(m, id);
        if TotalMs(e) <= m[k].1.totalMs {
          RecordsKept(entries, e, id, m[k].1);
        } else {
          RecordsReplaced(entries, e, id, m[k].1);
        }
      } else {
        RecordsFirst(entries, e, id);
      }
    }
  }

  lemma TrackedKeysAreDistinct(entries: seq<Entry>)
    ensures var m := Fold(NOTHING_FOLDED, entries).interactions;
            && DistinctKeys(m)
            && (forall k | 0 <= k < |m| :: m[k].0 != 0)
            && |m| <= MAX_TRACKED_INTERACTIONS
  {
    TracksFirstIds(entries);
    DistinctIdsAreDistinct(entries);
    var m := Fold(NOTHING_FOLDED, entries).interactions;
    assert forall k | 0 <= k < |m| :: m[k].0 == DistinctIds(entries)[k];
  }

  /** Every tracked interaction carries the maximum rounded duration of its entries, the
      components of the earliest entry that attains it, and the number of its entries. */
  lemma {:induction false} RecordsTheWorstEntry(entries: seq<Entry>)
    ensures RecordsAll(entries, Fold(NOTHING_FOLDED, entries).interactions)
  {
    if entries == [] {
    } else {
      var n := |entries| - 1;
      var s, id := Fold(NOTHING_FOLDED, entries[..n]), entries[n].interactionId;
      RecordsTheWorstEntry(entries[..n]);
      TrackedKeysAreDistinct(entries[..n]);
      if id != 0 && !Has(s.interactions, id) && |s.interactions| < MAX_TRACKED_INTERACTIONS {
        TracksFirstIds(entries[..n]);
        DistinctIdsAreDistinct(entries[..n]);
        HasKey(s.interactions, id);
      }
      StepRecords(entries[..n], entries[n], s);
      assert entries[..n] + [entries[n]] == entries;
    }
  }

  /** `part` is a nonnegative interval rounded to the nearest millisecond, a half up, or 0 for a
      negative interval. */
  predicate Rounded(part: nat, interval: real) {
    if interval < 0.0 then part == 0 else interval - 0.5 < part as real <= interval + 0.5
  }

  lemma RoundedIs(interval: real)
    ensures Rounded(NonNegative(Round(interval)), interval)
  {
  }

  lemma RoundedOnce(part: nat, other: nat, interval: real)
    requires Rounded(part, interval) && Rounded(other, interval)
    ensures part == other
  {
  }

  /** `v` describes the entry: its rounded duration, its three intervals each rounded on its own, with
      the presentation ending at the rounded duration, and its flag. */
  predicate Describes(v: Interaction, e: Entry) {
    && Rounded(v.totalMs, e.duration)
    && Rounded(v.inputDelayMs, e.processingStart - e.startTime)
    && Rounded(v.processingMs, e.processingEnd - e.processingStart)
    && Rounded(v.presentationMs, e.startTime + (v.totalMs as real) - e.processingEnd)
    && v.cancelable == e.cancelable
  }

  lemma MeasuredDescribes(e: Entry, entryCount: nat)
    ensures Describes(Measured(e, entryCount), e)
  {
    RoundedIs(e.duration);
    RoundedIs(e.processingStart - e.startTime);
    RoundedIs(e.processingEnd - e.processingStart);
    RoundedIs(e.startTime + (TotalMs(e) as real) - e.processingEnd);
  }

  /** No entry of the id rounds to more than `total`, and none before the `i`-th to as much. */
  ghost predicate EarliestLongest(entries: seq<Entry>, id: nat, i: nat, total: nat) {
    forall j, t: nat | 0 <= j < |entries| && entries[j].interactionId == id && Rounded(t, entries[j].duration) ::
      t <= total && (j < i ==> t < total)
  }

  lemma WorstIsEarliestLongest(entries: seq<Entry>, id: nat, i: nat)
    requires IsWorst(entries, id, i)
    ensures EarliestLongest(entries, id, i, TotalMs(entries[i]))
  {
    forall j, t: nat | 0 <= j < |entries| && entries[j].interactionId == id && Rounded(t, entries[j].duration)
      ensures t <= TotalMs(entries[i]) && (j < i ==> t < TotalMs(entries[i]))
    {
      RoundedIs(entries[j].duration);
      RoundedOnce(t, TotalMs(entries[j]), entries[j].duration);
    }
  }

  /** What each tracked interaction says, from the fields of its earliest longest entry. */
  lemma InteractionMeaning(entries: seq<Entry>, k: nat) returns (i: nat)
    requires k < |Fold(NOTHING_FOLDED, entries).interactions|
    ensures var (id, v) := Fold(NOTHING_FOLDED, entries).interactions[k];
            && i < |entries| && entries[i].interactionId == id
            && Describes(v, entries[i]) && EarliestLongest(entries, id, i, v.totalMs)
            && v.entryCount == CountId(entries, id)
  {
    var m := Fold(NOTHING_FOLDED, entries).interactions;
    RecordsTheWorstEntry(entries);
    assert Records(entries, m[k].0, m[k].1);
    i :| IsWorst(entries, m[k].0, i) && m[k].1 == Measured(entries[i], CountId(entries, m[k].0));
    MeasuredDescribes(entries[i], CountId(entries, m[k].0));
    WorstIsEarliestLongest(entries, m[k].0, i);
  }

  // ----------------------------------------------------------------- conservation

  function Sum(m: InsertionMap<nat, Interaction>, f: Interaction -> nat): nat {
    if m == [] then 0 else Sum(m[..|m| - 1], f) + f(m[|m| - 1].1)
  }

  function CountInteracting(entries: seq<Entry>): nat {
    if entries == [] then 0
    else CountInteracting(entries[..|entries| - 1]) + if entries[|entries| - 1].interactionId != 0 then 1 else 0
  }

  lemma {:induction false} SumUpdated(m: InsertionMap<nat, Interaction>, i: nat, kv: (nat, Interaction),
                                      f: Interaction -> nat)
    requires i < |m|
    ensures Sum(m[i := kv], f) + f(m[i].1) == Sum(m, f) + f(kv.1)
  {
    var n := |m| - 1;
    if i < n {
      SumUpdated(m[..n], i, kv, f);
      assert m[i := kv][..n] == m[..n][i := kv];
    } else {
      assert m[i := kv][..n] == m[..n];
    }
  }

  lemma SumSet(m: InsertionMap<nat, Interaction>, id: nat, v: Interaction, f: Interaction -> nat)
    ensures Sum(Set(m, id, v), f) + (if Has(m, id) then f(m[IndexOf(m, id)].1) else 0) == Sum(m, f) + f(v)
  {
    if Has(m, id) {
      SumUpdated(m, IndexOf(m, id), (id, v), f);
    } else {
      assert (m + [(id, v)])[..|m|] == m;
    }
  }

  function EntryCount(i: Interaction): nat {
    i.entryCount
  }

  lemma FoldOneConserves(s: FoldState, e: Entry)
    ensures Sum(FoldOne(s, e).interactions, EntryCount) + FoldOne(s, e).dropped
         == Sum(s.interactions, EntryCount) + s.dropped + if e.interactionId == 0 then 0 else 1
  {
    var m, id := s.interactions, e.interactionId;
    if Has(m, id) {
      var prior := m[IndexOf(m, id)].1;
      SumSet(m, id, prior.(entryCount := prior.entryCount + 1), EntryCount);
      SumSet(m, id, Measured(e, prior.entryCount + 1), EntryCount);
    } else {
      SumSet(m, id, Measured(e, 1), EntryCount);
    }
  }

  /** Nothing is lost: every entry with an id is counted in an interaction or in `dropped`. */
  lemma {:induction false} EntriesAreConserved(entries: seq<Entry>)
    ensures var s := Fold(NOTHING_FOLDED, entries);
            Sum(s.interactions, EntryCount) + s.dropped == CountInteracting(entries)
  {
    if entries == [] {
    } else {
      EntriesAreConserved(entries[..|entries| - 1]);
      FoldOneConserves(Fold(NOTHING_FOLDED, entries[..|entries| - 1]), entries[|entries| - 1]);
    }
  }

  // ----------------------------------------------------------------- the estimate

  function Total(i: Interaction): real {
    i.totalMs as real
  }

  function Totals(m: InsertionMap<nat, Interaction>): seq<real> {
    Selection.Keys(Values(m), Total)
  }

  /** `Math.ceil(n * 0.98)`, with 0.98 exact. */
  function Rank98(n: nat): nat {
    (n * 98 + 99) / 100
  }

  /** The estimate from the latencies in ascending order. */
  function InpOf(values: seq<real>): Option<real> {
    if |values| == 0 then None
    else if |values| < MIN_INTERACTIONS_FOR_PERCENTILE then Some(values[|values| - 1])
    else
      var rank := Rank98(|values|);
      Some(values[Min(|values|, if rank < 1 then 1 else rank) - 1])
  }

  function InpEstimate(m: InsertionMap<nat, Interaction>): Option<real> {
    InpOf(Selection.Sorted(Totals(m)))
  }

  lemma RankLeavesOneInFifty(n: nat)
    ensures 50 <= n ==> 1 <= Rank98(n) <= n && Rank98(n) - 1 == n - 1 - n / 50
    ensures n < 50 ==> n / 50 == 0
  {
  }

  lemma InpIndex(values: seq<real>)
    requires values != []
    ensures InpOf(values) == Some(values[|values| - 1 - |values| / 50])
  {
    RankLeavesOneInFifty(|values|);
  }

  /** Both branches say the same: set aside one interaction in fifty, and take the longest left. */
  lemma InpSetsAsideOneInFifty(m: InsertionMap<nat, Interaction>)
    requires m != []
    ensures InpEstimate(m).Some?
    ensures Selection.IsOrderStatistic(Totals(m), |m| - 1 - |m| / 50, InpEstimate(m).value)
    ensures Selection.CountAbove(Totals(m), InpEstimate(m).value) <= |m| / 50
  {
    var totals, k := Totals(m), |m| - 1 - |m| / 50;
    InpIndex(Selection.Sorted(totals));
    Selection.SelectionFindsOrderStatistic(totals, Selection.Sorted(totals), k);
    Selection.CountsAddUp(totals, Selection.Sorted(totals)[k]);
  }

  // ---------------------------------------------------------------- reconciliation

  predicate WellTimed(e: Entry) {
    e.startTime <= e.processingStart <= e.processingEnd <= e.startTime + e.duration
  }

  predicate Reconciles(i: Interaction) {
    -1 <= i.inputDelayMs + i.processingMs + i.presentationMs - i.totalMs <= 1
  }

  /** Three separate roundings never move the parts more than one millisecond off their total. */
  lemma ComponentsReconcile(e: Entry, entryCount: nat)
    requires WellTimed(e)
    ensures Reconciles(Measured(e, entryCount))
  {
    var x, y := e.processingStart - e.startTime, e.processingEnd - e.processingStart;
    var z := e.startTime + (TotalMs(e) as real) - e.processingEnd;
    assert e.duration >= 0.0 && (Round(e.duration) as real) > e.duration - 0.5;
    assert Round(x) >= 0 && Round(y) >= 0 && Round(z) >= 0;
    assert x + y + z == TotalMs(e) as real;
  }

  lemma {:induction false} SumsReconcile(m: InsertionMap<nat, Interaction>)
    requires forall k | 0 <= k < |m| :: Reconciles(m[k].1)
    ensures -|m| <= Sum(m, (i: Interaction) => i.inputDelayMs) + Sum(m, (i: Interaction) => i.processingMs)
                    + Sum(m, (i: Interaction) => i.presentationMs) - Sum(m, (i: Interaction) => i.totalMs) <= |m|
  {
    if m != [] { SumsReconcile(m[..|m| - 1]); }
  }

  /** Over any well-timed entries the component totals miss the sum of the latencies by at most
      one millisecond for each tracked interaction. */
  lemma TotalsReconcile(entries: seq<Entry>)
    requires forall i | 0 <= i < |entries| && entries[i].interactionId != 0 :: WellTimed(entries[i])
    ensures var m := Fold(NOTHING_FOLDED, entries).interactions;
            -|m| <= Sum(m, (i: Interaction) => i.inputDelayMs) + Sum(m, (i: Interaction) => i.processingMs)
                    + Sum(m, (i: Interaction) => i.presentationMs) - Sum(m, (i: Interaction) => i.totalMs) <= |m|
  {
    var m := Fold(NOTHING_FOLDED, entries).interactions;
    RecordsTheWorstEntry(entries);
    TrackedKeysAreDistinct(entries);
    forall k | 0 <= k < |m| ensures Reconciles(m[k].1) {
      var i: nat :| IsWorst(entries, m[k].0, i) && m[k].1 == Measured(entries[i], CountId(entries, m[k].0));
      ComponentsReconcile(entries[i], CountId(entries, m[k].0));
    }
    SumsReconcile(m);
  }

  /** The bound of one millisecond is attained, and without the timing condition, here because the
      processing times are missing, the parts can be off by any amount. */
  lemma ReconciliationIsTight(missing: nat)
    ensures var e := Entry(1, 0.0, 0.5, 1.0, 1.0, false);
            var i := Measured(e, 1);
            WellTimed(e) && i.inputDelayMs + i.processingMs + i.presentationMs == i.totalMs + 1
    ensures var e := Entry(1, missing as real, 0.0, 0.0, 8.0, false);
            var i := Measured(e, 1);
            i.inputDelayMs + i.processingMs + i.presentationMs == i.totalMs + missing
  {
    assert Round(0.5) == 1 && Round(1.0) == 1 && Round(0.0) == 0 && Round(8.0) == 8;
    assert Round((missing + 8) as real) == missing + 8;
    assert (missing as real) + 8.0 == (missing + 8) as real;
    assert Round(0.0 - (missing as real)) <= 0;
  }
}
