/** Properties of the stutter envelope over whole runs. */
module StutterTraces {
  import opened Sequences
  import opened StutterEnvelope
  import opened StutterSignals
  import opened Wrappers

  function RunRegime(s: RegimeState, trace: seq<Observation>): RegimeState {
    if trace == [] then s
    else RegimeObserved(RunRegime(s, trace[..|trace| - 1]), trace[|trace| - 1])
  }

  function RunEnvelope(e: EnvelopeState, trace: seq<Observation>): EnvelopeState {
    if trace == [] then e
    else EnvelopeObserved(RunEnvelope(e, trace[..|trace| - 1]), trace[|trace| - 1])
  }

  // ------------------------------------------------------ projection and erasure

  function InRegime(r: WorkloadRegime): Observation -> bool {
    (o: Observation) => Regime(o) == r
  }

  function Project(trace: seq<Observation>, r: WorkloadRegime): seq<Observation> {
    Filter(InRegime(r), trace)
  }

  lemma RunAppend(s: RegimeState, trace: seq<Observation>, o: Observation)
    ensures RunRegime(s, trace + [o]) == RegimeObserved(RunRegime(s, trace), o)
  {
    assert (trace + [o])[..|trace|] == trace;
  }

  lemma OneRegimeChanges(e: EnvelopeState, o: Observation, r: WorkloadRegime)
    ensures EnvelopeObserved(e, o)[r.Index()]
         == if Regime(o) == r then RegimeObserved(e[r.Index()], o) else e[r.Index()]
  {
  }

  lemma ProjectLast(trace: seq<Observation>, r: WorkloadRegime)
    requires trace != []
    ensures var early, last := trace[..|trace| - 1], trace[|trace| - 1];
            Project(trace, r) == if Regime(last) == r then Project(early, r) + [last] else Project(early, r)
  {
  }

  /** After any interleaving each regime is the fold of its own observations and nothing else. */
  lemma {:induction false} TraceProjection(e: EnvelopeState, trace: seq<Observation>, r: WorkloadRegime)
    ensures RunEnvelope(e, trace)[r.Index()] == RunRegime(e[r.Index()], Project(trace, r))
  {
    if trace == [] {
    } else {
      var n := |trace| - 1;
      TraceProjection(e, trace[..n], r);
      OneRegimeChanges(RunEnvelope(e, trace[..n]), trace[n], r);
      ProjectLast(trace, r);
      RunAppend(e[r.Index()], Project(trace[..n], r), trace[n]);
    }
  }

  predicate Usable(o: Observation) {
    Normalized(o).Some?
  }

  /** The trace without its stale and non-finite observations. */
  function Erased(trace: seq<Observation>): seq<Observation> {
    Filter((o: Observation) => Usable(o), trace)
  }

  function DecisionAfter(e: EnvelopeState, trace: seq<Observation>, o: Observation): Decision {
    Decided(RunEnvelope(e, trace)[Regime(o).Index()], o)
  }

  /** The decisions returned for the usable observations of a run. */
  function UsableDecisions(e: EnvelopeState, trace: seq<Observation>): seq<Decision> {
    if trace == [] then []
    else UsableDecisions(e, trace[..|trace| - 1])
         + if Usable(trace[|trace| - 1]) then [DecisionAfter(e, trace[..|trace| - 1], trace[|trace| - 1])] else []
  }

  /** Deleting every stale or non-finite observation changes no state and none of the other decisions. */
  lemma {:induction false} Erasure(e: EnvelopeState, trace: seq<Observation>)
    ensures RunEnvelope(e, Erased(trace)) == RunEnvelope(e, trace)
    ensures UsableDecisions(e, Erased(trace)) == UsableDecisions(e, trace)
  {
    if trace == [] {
    } else {
      var n := |trace| - 1;
      Erasure(e, trace[..n]);
      if Usable(trace[n]) {
        assert Erased(trace)[..|Erased(trace)| - 1] == Erased(trace[..n]);
      } else {
        assert Erased(trace) == Erased(trace[..n]);
        assert UsableDecisions(e, trace) == UsableDecisions(e, trace[..n]);
        assert EnvelopeObserved(RunEnvelope(e, trace[..n]), trace[n]) == RunEnvelope(e, trace[..n]);
      }
    }
  }

  // ------------------------------------------------------- incidents never train

  ghost function BreachSet(t: Signals, current: Signals, n: nat): set<nat>
    requires n <= SIGNAL_COUNT
  {
    set i: nat | i < n && Ratio(t, current, i) > 1.0
  }

  ghost function RiseSet(s: RegimeState, current: Signals, n: nat): set<nat>
    requires n <= SIGNAL_COUNT
  {
    set i: nat | i < n && RisesFast(s.thresholds, s.previous, current, i)
  }

  lemma {:induction false} BreachesAreCounted(t: Signals, current: Signals, n: nat)
    requires n <= SIGNAL_COUNT
    ensures Breaches(t, current, n) == |BreachSet(t, current, n)|
  {
    if n > 0 {
      BreachesAreCounted(t, current, n - 1);
      assert BreachSet(t, current, n)
          == BreachSet(t, current, n - 1) + if Ratio(t, current, n - 1) > 1.0 then {n - 1} else {};
    }
  }

  lemma {:induction false} RisesAreCounted(s: RegimeState, current: Signals, n: nat)
    requires n <= SIGNAL_COUNT
    ensures RapidRises(s.thresholds, s.previous, current, n) == |RiseSet(s, current, n)|
  {
    if n > 0 {
      RisesAreCounted(s, current, n - 1);
      assert RiseSet(s, current, n) == RiseSet(s, current, n - 1)
             + if RisesFast(s.thresholds, s.previous, current, n - 1) then {n - 1} else {};
    }
  }

  lemma {:induction false} MaxRatioIsReached(t: Signals, current: Signals, n: nat, bound: real)
    requires n <= SIGNAL_COUNT && bound > 0.0
    ensures MaxRatio(t, current, n) >= bound <==> exists i: nat :: i < n && Ratio(t, current, i) >= bound
  {
    if n > 0 {
      MaxRatioIsReached(t, current, n - 1, bound);
      if Ratio(t, current, n - 1) >= bound {
        assert n - 1 < n;
      }
    }
  }

  /** The risk in terms of the signals themselves: Constrained on one at three times its threshold
      or three above theirs; otherwise Guarded on one at half again, two above, or two rising fast. */
  lemma RiskMeaning(s: RegimeState, current: Signals)
    ensures Classified(s, current).0 == Constrained <==>
              || (exists i: nat :: i < SIGNAL_COUNT && Ratio(s.thresholds, current, i) >= CONSTRAINED_RATIO)
              || |BreachSet(s.thresholds, current, SIGNAL_COUNT)| >= 3
    ensures Classified(s, current).0 == Nominal <==>
              && (forall i: nat | i < SIGNAL_COUNT :: Ratio(s.thresholds, current, i) < GUARDED_RATIO)
              && |BreachSet(s.thresholds, current, SIGNAL_COUNT)| <= 1
              && |RiseSet(s, current, SIGNAL_COUNT)| <= 1
  {
    BreachesAreCounted(s.thresholds, current, SIGNAL_COUNT);
    RisesAreCounted(s, current, SIGNAL_COUNT);
    MaxRatioIsReached(s.thresholds, current, SIGNAL_COUNT, CONSTRAINED_RATIO);
    MaxRatioIsReached(s.thresholds, current, SIGNAL_COUNT, GUARDED_RATIO);
  }

  /** One signal at least half again its threshold, or two above theirs. */
  ghost predicate Incident(t: Signals, current: Signals) {
    || (exists i: nat :: i < SIGNAL_COUNT && Ratio(t, current, i) >= GUARDED_RATIO)
    || |BreachSet(t, current, SIGNAL_COUNT)| >= 2
  }

  ghost predicate AllIncidents(t: Signals, trace: seq<Observation>) {
    forall i | 0 <= i < |trace| && Usable(trace[i]) :: Incident(t, Normalized(trace[i]).value)
  }

  predicate SameBaseline(a: RegimeState, b: RegimeState) {
    a.samples == b.samples && a.thresholds == b.thresholds && a.accepted == b.accepted
  }

  /** Past cold start, incidents in any number and any mixture leave the baseline untouched. */
  lemma {:induction false} IncidentsNeverTrain(s: RegimeState, trace: seq<Observation>)
    requires PhaseOf(s) != ColdStart && AllIncidents(s.thresholds, trace)
    ensures SameBaseline(RunRegime(s, trace), s)
  {
    if trace == [] {
    } else {
      var n := |trace| - 1;
      IncidentsNeverTrain(s, trace[..n]);
      var before := RunRegime(s, trace[..n]);
      if Usable(trace[n]) {
        RiskMeaning(before, Normalized(trace[n]).value);
      }
    }
  }

  // ---------------------------------------------------------------- phases, risk

  lemma {:induction false} PhaseNeverRegresses(s: RegimeState, a: seq<Observation>, b: seq<Observation>)
    ensures PhaseOf(RunRegime(s, a)).Rank() <= PhaseOf(RunRegime(s, a + b)).Rank()
    ensures |RunRegime(s, a).samples| <= |RunRegime(s, a + b).samples|
    ensures RunRegime(s, a).shadow <= RunRegime(s, a + b).shadow
  {
    if b == [] {
      assert a + b == a;
    } else {
      assert (a + b)[..|a + b| - 1] == a + b[..|b| - 1];
      PhaseNeverRegresses(s, a, b[..|b| - 1]);
    }
  }

  /** What a fresh regime has earned so far is paid for, one usable observation each. */
  lemma {:induction false} WarmUpCost(trace: seq<Observation>)
    ensures var s := RunRegime(FRESH, trace);
            && (|s.samples| < BASELINE_MIN_SAMPLES ==> s.shadow == 0)
            && Min(|s.samples|, BASELINE_MIN_SAMPLES) + s.shadow <= |Erased(trace)|
            && s.shadow <= SHADOW_MIN_OBSERVATIONS
  {
    if trace == [] {
    } else {
      WarmUpCost(trace[..|trace| - 1]);
    }
  }

  /** A risk other than Nominal is reported only in the Active phase, which takes at least 180
      usable observations of that regime to reach. */
  lemma RiskNeedsWarmUp(trace: seq<Observation>, o: Observation)
    requires Decided(RunRegime(FRESH, trace), o).risk != Nominal
    ensures Decided(RunRegime(FRESH, trace), o).phase == Active
    ensures Decided(RunRegime(FRESH, trace), o).wouldGuard
    ensures BASELINE_MIN_SAMPLES + SHADOW_MIN_OBSERVATIONS <= |Erased(trace)|
  {
    WarmUpCost(trace);
  }
}
