/** What a regime learns: the window and the thresholds after any run, from any starting state. */
module StutterWindows {
  import opened Selection
  import opened Sequences
  import opened StutterEnvelope
  import opened StutterSignals
  import opened StutterTraces
  import opened Wrappers

  // ------------------------------------------------------------------- admissions

  /** The samples a run admits into the baseline, in order. */
  function Admissions(s: RegimeState, trace: seq<Observation>): seq<Signals> {
    if trace == [] then []
    else
      var before := RunRegime(s, trace[..|trace| - 1]);
      var o := trace[|trace| - 1];
      Admissions(s, trace[..|trace| - 1])
      + if Usable(o) && AdmitsBaseline(before, o, Normalized(o).value, Candidate(before, Normalized(o).value).0)
        then [Normalized(o).value] else []
  }

  predicate Healthy(sample: Signals) {
    forall i | 0 <= i < SIGNAL_COUNT :: 0.0 <= sample[i] <= 1.0
  }

  lemma NormalizedIsBounded(o: Observation)
    requires Usable(o)
    ensures forall i | 0 <= i < SIGNAL_COUNT :: 0.0 <= Normalized(o).value[i] <= MAX_NORMALIZED_SAMPLE
  {
  }

  /** In no phase does a run admit a sample with a signal above its hard limit. */
  lemma {:induction false} AdmissionsAreHealthy(s: RegimeState, trace: seq<Observation>)
    ensures forall k | 0 <= k < |Admissions(s, trace)| :: Healthy(Admissions(s, trace)[k])
  {
    if trace != [] {
      AdmissionsAreHealthy(s, trace[..|trace| - 1]);
      if Usable(trace[|trace| - 1]) {
        NormalizedIsBounded(trace[|trace| - 1]);
      }
    }
  }

  /** No memory signal above three times its floor: refaults, stalls, swap growth, thrashing and
      the fluidity forecast. */
  predicate ColdStartHarmless(sample: Signals) {
    && sample[0] <= 0.30 && sample[1] <= 0.30 && sample[2] <= 0.30 && sample[3] <= 0.30 && sample[8] <= 0.60
  }

  /** One observation is learned if and only if it is usable, the cycle was fluid and healthy, and
      it looks harmless: in cold start by its memory signals, and later by being no incident and
      having at most one signal that rises fast. */
  lemma AdmissionRule(s: RegimeState, o: Observation)
    ensures Admissions(s, [o]) != [] <==>
              && Usable(o)
              && !o.fluidityDegraded
              && o.p95CycleMs.Finite? && 0.0 < o.p95CycleMs.value < 60.0
              && Healthy(Normalized(o).value)
              && if PhaseOf(s) == ColdStart then ColdStartHarmless(Normalized(o).value)
                 else !Incident(s.thresholds, Normalized(o).value)
                      && |RiseSet(s, Normalized(o).value, SIGNAL_COUNT)| <= 1
    ensures Admissions(s, [o]) != [] ==> Admissions(s, [o]) == [Normalized(o).value]
  {
    assert [o][..0] == [];
    if Usable(o) {
      NormalizedIsBounded(o);
      RiskMeaning(s, Normalized(o).value);
    }
  }

  function PushAll(s: RegimeState, admitted: seq<Signals>): RegimeState {
    if admitted == [] then s
    else Pushed(PushAll(s, admitted[..|admitted| - 1]), admitted[|admitted| - 1])
  }

  lemma {:induction false} RunLearnsItsAdmissions(s: RegimeState, trace: seq<Observation>)
    ensures SameBaseline(RunRegime(s, trace), PushAll(s, Admissions(s, trace)))
  {
    if trace == [] {
    } else {
      var n := |trace| - 1;
      RunLearnsItsAdmissions(s, trace[..n]);
      var a := Admissions(s, trace);
      if |a| > |Admissions(s, trace[..n])| {
        assert a[..|a| - 1] == Admissions(s, trace[..n]);
      } else {
        assert a == Admissions(s, trace[..n]);
      }
    }
  }

  // -------------------------------------------------------- the window and its rule

  /** The last 120 samples. */
  function LastCapacity<T>(samples: seq<T>): (kept: seq<T>)
    ensures |kept| == Min(|samples|, BASELINE_WINDOW_CAPACITY)
  {
    if |samples| <= BASELINE_WINDOW_CAPACITY then samples else samples[|samples| - BASELINE_WINDOW_CAPACITY..]
  }

  /** Whether the `n`-th admission since `s` recomputes the thresholds: it completes the first sixty
      samples, or brings the saturating admission counter to a multiple of eight. */
  predicate RefreshesAt(s: RegimeState, n: nat) {
    || |s.samples| + n == BASELINE_MIN_SAMPLES
    || Min(s.accepted + n, U64_MAX) % THRESHOLD_REFRESH_SAMPLES == 0
  }

  /** The latest of the first `n` admissions since `s` that recomputed the thresholds; 0 if none did. */
  function LastRefresh(s: RegimeState, n: nat): (m: nat)
    ensures m <= n && (m > 0 ==> RefreshesAt(s, m))
    ensures forall k | m < k <= n :: !RefreshesAt(s, k)
  {
    if n == 0 || RefreshesAt(s, n) then n else LastRefresh(s, n - 1)
  }

  /** The window after the first `m` admissions. */
  function WindowAt(s: RegimeState, admitted: seq<Signals>, m: nat): seq<Signals>
    requires m <= |admitted|
  {
    LastCapacity(s.samples + admitted[..m])
  }

  /** The thresholds if the `m`-th admission was the latest to recompute them. */
  function ThresholdsAt(s: RegimeState, admitted: seq<Signals>, m: nat): Signals
    requires m <= |admitted|
  {
    if m == 0 then s.thresholds else LearnedThresholds(WindowAt(s, admitted, m))
  }

  /** The closed form of a regime that was in state `s` and has learned exactly `admitted` since. */
  predicate HasLearned(t: RegimeState, s: RegimeState, admitted: seq<Signals>) {
    && t.samples == WindowAt(s, admitted, |admitted|)
    && t.accepted == Min(s.accepted + |admitted|, U64_MAX)
    && t.thresholds == ThresholdsAt(s, admitted, LastRefresh(s, |admitted|))
  }

  lemma WindowSlides<T>(before: seq<T>, x: T)
    ensures var kept := LastCapacity(before);
            LastCapacity(before + [x])
            == (if |kept| == BASELINE_WINDOW_CAPACITY then kept[1..] else kept) + [x]
  {
  }

  lemma EarlierWindow(s: RegimeState, admitted: seq<Signals>, m: nat)
    requires m < |admitted|
    ensures WindowAt(s, admitted[..|admitted| - 1], m) == WindowAt(s, admitted, m)
    ensures ThresholdsAt(s, admitted[..|admitted| - 1], m) == ThresholdsAt(s, admitted, m)
  {
    assert admitted[..|admitted| - 1][..m] == admitted[..m];
  }

  lemma LearnOne(t: RegimeState, s: RegimeState, admitted: seq<Signals>)
    requires admitted != [] && |s.samples| <= BASELINE_WINDOW_CAPACITY
    requires HasLearned(t, s, admitted[..|admitted| - 1])
    ensures HasLearned(Pushed(t, admitted[|admitted| - 1]), s, admitted)
  {
    var n := |admitted|;
    var before := s.samples + admitted[..n - 1];
    assert admitted[..n - 1][..n - 1] == admitted[..n - 1];
    assert before + [admitted[n - 1]] == s.samples + admitted[..n];
    WindowSlides(before, admitted[n - 1]);
    if !RefreshesAt(s, n) {
      EarlierWindow(s, admitted, LastRefresh(s, n));
    }
  }

  lemma {:induction false} PushAllRefines(s: RegimeState, admitted: seq<Signals>)
    requires |s.samples| <= BASELINE_WINDOW_CAPACITY
    ensures HasLearned(PushAll(s, admitted), s, admitted)
  {
    if admitted == [] {
      assert s.samples + admitted[..0] == s.samples;
    } else {
      PushAllRefines(s, admitted[..|admitted| - 1]);
      LearnOne(PushAll(s, admitted[..|admitted| - 1]), s, admitted);
    }
  }

  /** What a regime has learned after any run, fresh or restored, in terms of the state it started
      from and the admitted samples alone. */
  lemma WindowRefinement(s: RegimeState, trace: seq<Observation>)
    requires |s.samples| <= BASELINE_WINDOW_CAPACITY
    ensures HasLearned(RunRegime(s, trace), s, Admissions(s, trace))
  {
    RunLearnsItsAdmissions(s, trace);
    PushAllRefines(s, Admissions(s, trace));
  }

  // -------------------------------------------------------- the age of the thresholds

  lemma SaturatedIsOdd(c: nat)
    requires U64_MAX - 7 < c
    ensures Min(c, U64_MAX) % THRESHOLD_REFRESH_SAMPLES != 0
  {
  }

  lemma RefreshedLately(s: RegimeState, n: nat)
    requires THRESHOLD_REFRESH_SAMPLES <= n && s.accepted + n <= U64_MAX
    ensures n - LastRefresh(s, n) < THRESHOLD_REFRESH_SAMPLES
  {
    var r := (s.accepted + n) % THRESHOLD_REFRESH_SAMPLES;
    assert (s.accepted + (n - r)) % THRESHOLD_REFRESH_SAMPLES == 0;
    assert RefreshesAt(s, n - r);
  }

  lemma RefreshedBySaturation(s: RegimeState, n: nat)
    requires THRESHOLD_REFRESH_SAMPLES <= n && U64_MAX < s.accepted + n
    ensures n - LastRefresh(s, n) < THRESHOLD_REFRESH_SAMPLES <==>
              |s.samples| < BASELINE_MIN_SAMPLES <= |s.samples| + n < BASELINE_MIN_SAMPLES + 8
  {
    var m := LastRefresh(s, n);
    if n - m < THRESHOLD_REFRESH_SAMPLES {
      SaturatedIsOdd(s.accepted + m);
    }
    if |s.samples| < BASELINE_MIN_SAMPLES <= |s.samples| + n {
      assert RefreshesAt(s, BASELINE_MIN_SAMPLES - |s.samples|);
    }
  }

  /** After any run from any state, fresh or restored, the thresholds are fewer than eight admissions
      old if and only if there were not eight yet, the counter, with what was restored into it, has
      not saturated past use, or the first sixty samples have only just come together. */
  lemma ThresholdsAreRecentExactly(s: RegimeState, trace: seq<Observation>)
    requires |s.samples| <= BASELINE_WINDOW_CAPACITY
    ensures var n := |Admissions(s, trace)|;
            && RunRegime(s, trace).thresholds == ThresholdsAt(s, Admissions(s, trace), LastRefresh(s, n))
            && (n - LastRefresh(s, n) < THRESHOLD_REFRESH_SAMPLES <==>
                  || n < THRESHOLD_REFRESH_SAMPLES
                  || s.accepted + n <= U64_MAX
                  || (|s.samples| < BASELINE_MIN_SAMPLES <= |s.samples| + n < BASELINE_MIN_SAMPLES + 8))
  {
    WindowRefinement(s, trace);
    var n := |Admissions(s, trace)|;
    if THRESHOLD_REFRESH_SAMPLES <= n {
      if s.accepted + n <= U64_MAX {
        RefreshedLately(s, n);
      } else {
        RefreshedBySaturation(s, n);
      }
    }
  }

  /** A regime that starts fresh holds the last 120 samples it admitted, and its thresholds go
      stale if and only if it has admitted more than the counter can count. */
  lemma FreshRegime(trace: seq<Observation>)
    ensures var a := Admissions(FRESH, trace);
            && RunRegime(FRESH, trace).samples == a[|a| - Min(|a|, 120)..]
            && (|a| - LastRefresh(FRESH, |a|) < THRESHOLD_REFRESH_SAMPLES <==> |a| <= U64_MAX)
  {
    WindowRefinement(FRESH, trace);
    ThresholdsAreRecentExactly(FRESH, trace);
    var a := Admissions(FRESH, trace);
    assert FRESH.samples + a[..|a|] == a;
  }

  lemma {:induction false} SaturatedNeverRefreshes(s: RegimeState, n: nat)
    requires s.accepted == U64_MAX && BASELINE_MIN_SAMPLES <= |s.samples|
    ensures LastRefresh(s, n) == 0
  {
    if n > 0 {
      SaturatedNeverRefreshes(s, n - 1);
      SaturatedIsOdd(s.accepted + n);
    }
  }

  /** A saturated counter ends learning: no observation ever changes a threshold again. */
  lemma SaturatedThresholdsAreFrozen(s: RegimeState, trace: seq<Observation>)
    requires s.accepted == U64_MAX && BASELINE_MIN_SAMPLES <= |s.samples| <= BASELINE_WINDOW_CAPACITY
    ensures RunRegime(s, trace).thresholds == s.thresholds
  {
    WindowRefinement(s, trace);
    SaturatedNeverRefreshes(s, |Admissions(s, trace)|);
  }

  // ---------------------------------------------------- samples above their threshold

  lemma LearnedThresholdDominates(window: seq<Signals>, signal: nat)
    requires window != [] && signal < SIGNAL_COUNT
    ensures Percentile(window, signal) <= MAX_LEARNED_THRESHOLD
            <==> Percentile(window, signal) <= LearnedThreshold(window, signal)
    ensures THRESHOLD_FLOORS[signal] <= LearnedThreshold(window, signal) <= MAX_LEARNED_THRESHOLD
  {
  }

  /** The threshold is the value nearest to 1.35 times the percentile between the signal's floor and 0.90. */
  lemma LearnedThresholdMeaning(window: seq<Signals>, signal: nat)
    requires window != [] && signal < 9
    ensures var t, goal := LearnedThreshold(window, signal), 1.35 * Percentile(window, signal);
            var floor := [0.10, 0.10, 0.10, 0.10, 0.50, 0.35, 0.25, 0.55, 0.20][signal];
            floor <= t <= 0.90 && (t < goal ==> t == 0.90) && (goal < t ==> t == floor)
  {
  }

  lemma {:induction false} CountAboveShrinks(s: seq<real>, v: real, w: real)
    requires v <= w
    ensures CountAbove(s, w) <= CountAbove(s, v)
  {
    if s != [] { CountAboveShrinks(s[1..], v, w); }
  }

  /** At a refresh over `n` samples, at most one in twenty of the others (rounded up) exceeds the
      new threshold, exactly when the percentile is not above the ceiling of 0.90. */
  lemma FewSamplesExceedTheThreshold(window: seq<Signals>, signal: nat)
    requires window != [] && signal < SIGNAL_COUNT
    ensures CountAbove(Column(window, signal), LearnedThreshold(window, signal)) <= (|window| - 1 + 19) / 20
            <==> Percentile(window, signal) <= MAX_LEARNED_THRESHOLD
  {
    var c, p, t := Column(window, signal), Percentile(window, signal), LearnedThreshold(window, signal);
    LearnedThresholdDominates(window, signal);
    CountsAddUp(c, p);
    if p <= MAX_LEARNED_THRESHOLD {
      CountAboveShrinks(c, p, t);
    } else {
      CountsAddUp(c, t);
      CountsAreMonotone(c, t, p);
    }
  }

  // --------------------------------------------------------------- steady observations

  /** A cycle with all signals at rest except the given CPU load and a p95 of 30 ms. */
  function Steady(cpuMaxBusy: real): Observation {
    Observation(Finite(30.0), Finite(0.0), Finite(0.0), Finite(0.0), Finite(0.0), Finite(cpuMaxBusy), Finite(0.0),
                Finite(0.0), Finite(1.0), false, false, Finite(0.0), false, false)
  }

  function SteadySample(cpuMaxBusy: real): Signals {
    [0.0, 0.0, 0.0, 0.0, cpuMaxBusy / 0.80, 0.0, 0.0, 0.5, 0.0]
  }

  lemma SteadyIsNormalized(cpuMaxBusy: real)
    requires 0.0 <= cpuMaxBusy <= 0.80
    ensures Normalized(Steady(cpuMaxBusy)) == Some(SteadySample(cpuMaxBusy))
  {
    var raw, o := RawSignals(Steady(cpuMaxBusy)), Steady(cpuMaxBusy);
    assert PredictedFluidityRisk(Finite(1.0)) == 0.0;
    assert AllFinite(raw);
    assert Normalized(o).value == SteadySample(cpuMaxBusy);
  }

  lemma AdmissionsAppend(s: RegimeState, trace: seq<Observation>, o: Observation)
    ensures Admissions(s, trace + [o]) == Admissions(s, trace) + Admissions(RunRegime(s, trace), [o])
  {
    assert (trace + [o])[..|trace|] == trace && [o][..0] == [];
  }

  /** At its floors a regime sees nothing in a steady load of up to 0.40. */
  lemma SteadyIsHarmless(s: RegimeState, cpuMaxBusy: real)
    requires s.thresholds == THRESHOLD_FLOORS && 0.0 <= cpuMaxBusy <= 0.40
    requires s.previous.Some? ==> s.previous.value == SteadySample(cpuMaxBusy)
    ensures !Incident(s.thresholds, SteadySample(cpuMaxBusy))
    ensures RiseSet(s, SteadySample(cpuMaxBusy), SIGNAL_COUNT) == {}
  {
    var x := SteadySample(cpuMaxBusy);
    forall i: nat | i < SIGNAL_COUNT ensures Ratio(s.thresholds, x, i) <= 1.0 {
      assert x[i] <= Threshold(s.thresholds, i);
    }
    assert BreachSet(s.thresholds, x, SIGNAL_COUNT) == {};
  }

  lemma SteadyIsAdmitted(s: RegimeState, cpuMaxBusy: real)
    requires 0.0 <= cpuMaxBusy <= 0.80
    requires PhaseOf(s) != ColdStart ==>
               && cpuMaxBusy <= 0.40 && s.thresholds == THRESHOLD_FLOORS
               && (s.previous.Some? ==> s.previous.value == SteadySample(cpuMaxBusy))
    ensures Admissions(s, [Steady(cpuMaxBusy)]) == [SteadySample(cpuMaxBusy)]
  {
    SteadyIsNormalized(cpuMaxBusy);
    AdmissionRule(s, Steady(cpuMaxBusy));
    if PhaseOf(s) != ColdStart {
      SteadyIsHarmless(s, cpuMaxBusy);
    }
  }

  lemma {:induction false} SteadyRun(cpuMaxBusy: real, n: nat)
    requires 0.0 <= cpuMaxBusy <= 0.80 && n <= BASELINE_MIN_SAMPLES
    ensures Admissions(FRESH, Repeated(Steady(cpuMaxBusy), n)) == Repeated(SteadySample(cpuMaxBusy), n)
  {
    if n > 0 {
      var trace := Repeated(Steady(cpuMaxBusy), n - 1);
      SteadyRun(cpuMaxBusy, n - 1);
      FreshRegime(trace);
      SteadyIsAdmitted(RunRegime(FRESH, trace), cpuMaxBusy);
      AdmissionsAppend(FRESH, trace, Steady(cpuMaxBusy));
      RepeatedAppend(Steady(cpuMaxBusy), n - 1);
      RepeatedAppend(SteadySample(cpuMaxBusy), n - 1);
    }
  }

  lemma BusyWindow()
    ensures var s := RunRegime(FRESH, Repeated(Steady(0.80), BASELINE_MIN_SAMPLES));
            && s.samples == Repeated(SteadySample(0.80), BASELINE_MIN_SAMPLES)
            && s.thresholds == LearnedThresholds(s.samples)
  {
    var trace := Repeated(Steady(0.80), BASELINE_MIN_SAMPLES);
    SteadyRun(0.80, BASELINE_MIN_SAMPLES);
    WindowRefinement(FRESH, trace);
    FreshRegime(trace);
    assert RefreshesAt(FRESH, BASELINE_MIN_SAMPLES);
  }

  lemma BusyPercentile(window: seq<Signals>)
    requires window == Repeated(SteadySample(0.80), BASELINE_MIN_SAMPLES)
    ensures Percentile(window, 4) == 1.0 && LearnedThreshold(window, 4) == MAX_LEARNED_THRESHOLD
  {
    assert Percentile(window, 4) in Column(window, 4);
  }

  /** The ceiling is reachable: sixty cycles of a steady CPU load of 0.80 are all learned, and then
      every one of them exceeds the threshold learned from it. */
  lemma BusyBaselineExceedsItsThreshold()
    ensures var s := RunRegime(FRESH, Repeated(Steady(0.80), BASELINE_MIN_SAMPLES));
            && s.samples == Repeated(SteadySample(0.80), BASELINE_MIN_SAMPLES)
            && s.thresholds == LearnedThresholds(s.samples)
            && Percentile(s.samples, 4) == 1.0 > MAX_LEARNED_THRESHOLD == s.thresholds[4]
            && CountAbove(Column(s.samples, 4), s.thresholds[4]) > (|s.samples| - 1 + 19) / 20
  {
    BusyWindow();
    var window := RunRegime(FRESH, Repeated(Steady(0.80), BASELINE_MIN_SAMPLES)).samples;
    BusyPercentile(window);
    FewSamplesExceedTheThreshold(window, 4);
  }

  /** What a snapshot file may hold: a full baseline with a saturated counter. */
  const SATURATED := RegimeState(Repeated(SteadySample(0.0), BASELINE_MIN_SAMPLES), THRESHOLD_FLOORS, None, U64_MAX, 0)

  /** From there the thresholds grow as old as the run is long: every calm cycle is learned, and
      none of them recomputes anything. */
  lemma {:induction false} SaturatedThresholdsGrowOld(n: nat)
    ensures Admissions(SATURATED, Repeated(Steady(0.0), n)) == Repeated(SteadySample(0.0), n)
    ensures LastRefresh(SATURATED, n) == 0
    ensures var p := RunRegime(SATURATED, Repeated(Steady(0.0), n)).previous;
            p.Some? ==> p.value == SteadySample(0.0)
  {
    SaturatedNeverRefreshes(SATURATED, n);
    if n > 0 {
      var trace := Repeated(Steady(0.0), n - 1);
      SaturatedThresholdsGrowOld(n - 1);
      SaturatedThresholdsAreFrozen(SATURATED, trace);
      SteadyIsAdmitted(RunRegime(SATURATED, trace), 0.0);
      AdmissionsAppend(SATURATED, trace, Steady(0.0));
      RunAppend(SATURATED, trace, Steady(0.0));
      SteadyIsNormalized(0.0);
      RepeatedAppend(Steady(0.0), n - 1);
      RepeatedAppend(SteadySample(0.0), n - 1);
    }
  }
}
