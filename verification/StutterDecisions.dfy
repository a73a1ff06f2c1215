/** What the stutter envelope reports, after any run, in terms of the signals and the limits themselves. */
module StutterDecisions {
  import opened Sequences
  import opened StutterEnvelope
  import opened StutterRestoring
  import opened StutterSignals
  import opened StutterTraces
  import opened StutterWindows
  import opened Wrappers

  // ------------------------------------------------------------------ phases

  /** How many usable observations were made once sixty samples had been admitted. */
  function Watched(trace: seq<Observation>): nat {
    if trace == [] then 0
    else
      var early, o := trace[..|trace| - 1], trace[|trace| - 1];
      Watched(early) + if Usable(o) && 60 <= |Admissions(FRESH, early)| then 1 else 0
  }

  lemma {:induction false} ShadowCountsWatched(trace: seq<Observation>)
    ensures RunRegime(FRESH, trace).shadow == Min(120, Watched(trace))
  {
    if trace == [] {
    } else {
      var early := trace[..|trace| - 1];
      ShadowCountsWatched(early);
      FreshRegime(early);
    }
  }

  /** The phase after any run: sixty admissions end the cold start, and 120 usable observations after
      them end the shadow phase. */
  lemma PhaseMeaning(trace: seq<Observation>)
    ensures var phase, a := PhaseOf(RunRegime(FRESH, trace)), |Admissions(FRESH, trace)|;
            && (phase == ColdStart <==> a < 60)
            && (phase == Shadow <==> 60 <= a && Watched(trace) < 120)
            && (phase == Active <==> 60 <= a && 120 <= Watched(trace))
  {
    FreshRegime(trace);
    ShadowCountsWatched(trace);
  }

  lemma {:induction false} AdmissionsGrow(a: seq<Observation>, b: seq<Observation>)
    ensures |Admissions(FRESH, a)| <= |Admissions(FRESH, a + b)|
  {
    if b == [] {
      assert a + b == a;
    } else {
      assert (a + b)[..|a + b| - 1] == a + b[..|b| - 1];
      AdmissionsGrow(a, b[..|b| - 1]);
    }
  }

  lemma {:induction false} WatchedLater(a: seq<Observation>, b: seq<Observation>)
    requires 60 <= |Admissions(FRESH, a)|
    ensures Watched(a + b) >= |Erased(b)|
  {
    if b == [] {
    } else {
      var c := b[..|b| - 1];
      assert (a + b)[..|a + b| - 1] == a + c;
      WatchedLater(a, c);
      AdmissionsGrow(a, c);
    }
  }

  /** The warm-up is enough: after sixty admissions any 120 usable observations activate a regime. */
  lemma ActiveAfterWarmUp(a: seq<Observation>, b: seq<Observation>)
    requires 60 <= |Admissions(FRESH, a)| && 120 <= |Erased(b)|
    ensures PhaseOf(RunRegime(FRESH, a + b)) == Active
  {
    AdmissionsGrow(a, b);
    WatchedLater(a, b);
    PhaseMeaning(a + b);
  }

  lemma {:induction false} ErasedSteady(n: nat)
    ensures Erased(Repeated(Steady(0.0), n)) == Repeated(Steady(0.0), n)
  {
    SteadyIsNormalized(0.0);
    FilterAll((o: Observation) => Usable(o), Repeated(Steady(0.0), n));
  }

  /** And Active is really reached: 180 calm cycles are enough. */
  lemma ActiveIsReached(n: nat)
    requires 180 <= n
    ensures PhaseOf(RunRegime(FRESH, Repeated(Steady(0.0), n))) == Active
  {
    SteadyRun(0.0, 60);
    ErasedSteady(n - 60);
    RepeatedConcat(Steady(0.0), 60, n - 60);
    ActiveAfterWarmUp(Repeated(Steady(0.0), 60), Repeated(Steady(0.0), n - 60));
  }

  /** The remembered sample is that of the latest usable observation. */
  lemma {:induction false} PreviousIsLatest(trace: seq<Observation>)
    ensures RunRegime(FRESH, trace).previous
         == if Erased(trace) == [] then None else Normalized(Erased(trace)[|Erased(trace)| - 1])
  {
    if trace == [] {
    } else {
      PreviousIsLatest(trace[..|trace| - 1]);
    }
  }

  // --------------------------------------------------------------- risk and score

  /** The signals above their thresholds. */
  ghost function Exceeding(s: RegimeState, x: Signals): set<nat> {
    set i: nat | i < 9 && x[i] > s.thresholds[i]
  }

  /** The signals that rose, since the previous sample, by more than 0.10 and more than 35% of their
      thresholds, to more than 80% of them. */
  ghost function Surging(s: RegimeState, x: Signals): set<nat> {
    set i: nat | i < 9 && s.previous.Some? && x[i] > 0.80 * s.thresholds[i]
                 && x[i] - s.previous.value[i] > 0.10 && x[i] - s.previous.value[i] > 0.35 * s.thresholds[i]
  }

  ghost predicate Severe(s: RegimeState, x: Signals) {
    (exists i: nat :: i < 9 && x[i] >= 3.0 * s.thresholds[i]) || 3 <= |Exceeding(s, x)|
  }

  ghost predicate Harmless(s: RegimeState, x: Signals) {
    && (forall i: nat | i < 9 :: x[i] < 1.5 * s.thresholds[i])
    && |Exceeding(s, x)| <= 1 && |Surging(s, x)| <= 1
  }

  /** `score` is the largest ratio of a signal to its threshold. */
  ghost predicate LargestRatio(s: RegimeState, x: Signals, score: real) {
    && (forall i: nat | i < 9 :: x[i] <= score * s.thresholds[i])
    && exists i: nat :: i < 9 && x[i] == score * s.thresholds[i]
  }

  lemma Quotient(a: real, b: real, r: real)
    requires 0.0 < b
    ensures a / b >= r <==> a >= r * b
    ensures a / b > r <==> a > r * b
    ensures a / b == r <==> a == r * b
  {
    assert a == a / b * b;
  }

  lemma ThresholdsArePositive(s: RegimeState)
    requires Sound(s)
    ensures forall i: nat | i < 9 :: 0.10 <= s.thresholds[i] == Threshold(s.thresholds, i)
  {
  }

  lemma RatioIs(s: RegimeState, x: Signals, i: nat, r: real)
    requires Sound(s) && i < 9
    ensures Ratio(s.thresholds, x, i) >= r <==> x[i] >= r * s.thresholds[i]
    ensures Ratio(s.thresholds, x, i) > r <==> x[i] > r * s.thresholds[i]
    ensures Ratio(s.thresholds, x, i) == r <==> x[i] == r * s.thresholds[i]
  {
    ThresholdsArePositive(s);
    Quotient(x[i], s.thresholds[i], r);
  }

  lemma SetsAre(s: RegimeState, x: Signals)
    requires Sound(s)
    ensures BreachSet(s.thresholds, x, 9) == Exceeding(s, x)
    ensures RiseSet(s, x, 9) == Surging(s, x)
  {
    ThresholdsArePositive(s);
    forall i: nat | i < 9 ensures Ratio(s.thresholds, x, i) > 1.0 <==> x[i] > s.thresholds[i] {
      RatioIs(s, x, i, 1.0);
    }
  }

  lemma RiskIs(s: RegimeState, x: Signals)
    requires Sound(s)
    ensures Classified(s, x).0 == Constrained <==> Severe(s, x)
    ensures Classified(s, x).0 == Nominal <==> Harmless(s, x)
  {
    RiskMeaning(s, x);
    SetsAre(s, x);
    forall i: nat | i < 9
      ensures Ratio(s.thresholds, x, i) >= 3.0 <==> x[i] >= 3.0 * s.thresholds[i]
      ensures Ratio(s.thresholds, x, i) >= 1.5 <==> x[i] >= 1.5 * s.thresholds[i]
    {
      RatioIs(s, x, i, 3.0);
      RatioIs(s, x, i, 1.5);
    }
  }

  lemma {:induction false} MaxRatioIsLargest(t: Signals, x: Signals, n: nat) returns (j: nat)
    requires 0 < n <= 9 && forall i: nat | i < n :: 0.0 <= Ratio(t, x, i)
    ensures j < n && Ratio(t, x, j) == MaxRatio(t, x, n)
    ensures forall i: nat | i < n :: Ratio(t, x, i) <= MaxRatio(t, x, n)
  {
    if n == 1 {
      assert MaxRatio(t, x, 0) == 0.0;
      j := 0;
    } else {
      j := MaxRatioIsLargest(t, x, n - 1);
      if MaxRatio(t, x, n - 1) < Ratio(t, x, n - 1) {
        j := n - 1;
      }
    }
  }

  lemma LargestRatioIs(s: RegimeState, x: Signals, score: real, j: nat)
    requires Sound(s) && j < 9 && Ratio(s.thresholds, x, j) == score
    requires forall i: nat | i < 9 :: Ratio(s.thresholds, x, i) <= score
    ensures LargestRatio(s, x, score)
  {
    RatioIs(s, x, j, score);
    forall i: nat | i < 9 ensures x[i] <= score * s.thresholds[i] {
      RatioIs(s, x, i, score);
    }
  }

  lemma RatiosAreNonNegative(s: RegimeState, x: Signals)
    requires Sound(s) && forall i | 0 <= i < 9 :: 0.0 <= x[i]
    ensures forall i: nat | i < 9 :: 0.0 <= Ratio(s.thresholds, x, i)
  {
    forall i: nat | i < 9 ensures 0.0 <= Ratio(s.thresholds, x, i) {
      RatioIs(s, x, i, 0.0);
    }
  }

  lemma ScoreIs(s: RegimeState, x: Signals)
    requires Sound(s) && forall i | 0 <= i < 9 :: 0.0 <= x[i]
    ensures LargestRatio(s, x, MaxRatio(s.thresholds, x, 9))
  {
    RatiosAreNonNegative(s, x);
    var j := MaxRatioIsLargest(s.thresholds, x, 9);
    LargestRatioIs(s, x, MaxRatio(s.thresholds, x, 9), j);
  }

  /** The decision for an observation, after any run of a fresh regime. */
  lemma DecisionMeaning(trace: seq<Observation>, o: Observation)
    ensures var s := RunRegime(FRESH, trace);
            var d := Decided(s, o);
            && d.regime == Regime(o) && d.phase == PhaseOf(s)
            && d.samples == |RunRegime(FRESH, trace + [o]).samples|
            && (d.phase != Active || !Usable(o) ==> d.risk == Nominal)
            && (d.phase == ColdStart || !Usable(o) ==> !d.wouldGuard && d.score == 0.0)
            && (Usable(o) ==>
                  var x := Normalized(o).value;
                  && (d.phase == Active ==>
                        (d.risk == Constrained <==> Severe(s, x)) && (d.risk == Nominal <==> Harmless(s, x)))
                  && (d.phase != ColdStart ==>
                        (d.wouldGuard <==> !Harmless(s, x)) && LargestRatio(s, x, d.score)))
  {
    var s := RunRegime(FRESH, trace);
    SoundIsKept(FRESH, trace);
    RunAppend(FRESH, trace, o);
    if Usable(o) {
      NormalizedIsBounded(o);
      RiskIs(s, Normalized(o).value);
      ScoreIs(s, Normalized(o).value);
    }
  }
}
