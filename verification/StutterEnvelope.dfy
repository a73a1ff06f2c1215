/** Four independent learned envelopes, one per workload regime. */
module StutterEnvelope {
  import opened Wrappers
  import opened Selection
  import opened StutterSignals

  const THRESHOLD_REFRESH_SAMPLES := 8
  const ADAPTIVE_MARGIN := 1.35
  const GUARDED_RATIO := 1.50
  const CONSTRAINED_RATIO := 3.00
  const BASELINE_WINDOW_CAPACITY := 120
  const BASELINE_MIN_SAMPLES := 60
  const SHADOW_MIN_OBSERVATIONS := 120
  const MAX_LEARNED_THRESHOLD := 0.90
  const THRESHOLD_FLOORS: Signals := [0.10, 0.10, 0.10, 0.10, 0.50, 0.35, 0.25, 0.55, 0.20]

  datatype Phase = ColdStart | Shadow | Active {
    function Rank(): nat {
      match this
      case ColdStart => 0
      case Shadow => 1
      case Active => 2
    }
  }

  datatype Risk = Nominal | Guarded | Constrained

  datatype Decision = Decision(phase: Phase, risk: Risk, regime: WorkloadRegime, wouldGuard: bool,
                               score: real, samples: nat)

  datatype RegimeState = RegimeState(samples: seq<Signals>, thresholds: Signals, previous: Option<Signals>,
                                     accepted: U64, shadow: U64)

  const FRESH := RegimeState([], THRESHOLD_FLOORS, None, 0, 0)

  function PhaseOf(s: RegimeState): Phase {
    if |s.samples| < BASELINE_MIN_SAMPLES then ColdStart
    else if s.shadow < SHADOW_MIN_OBSERVATIONS then Shadow
    else Active
  }

  // -------------------------------------------------------------- classification

  function Threshold(t: Signals, i: nat): real
    requires i < SIGNAL_COUNT
  {
    MaxReal(t[i], 0.001)
  }

  function Ratio(t: Signals, current: Signals, i: nat): real
    requires i < SIGNAL_COUNT
  {
    current[i] / Threshold(t, i)
  }

  predicate RisesFast(t: Signals, previous: Option<Signals>, current: Signals, i: nat)
    requires i < SIGNAL_COUNT
  {
    && previous.Some?
    && current[i] > Threshold(t, i) * 0.80
    && current[i] - previous.value[i] > MaxReal(Threshold(t, i) * 0.35, 0.10)
  }

  /** Over the first `n` signals: the largest ratio, the breaches and the rapid rises. */
  function MaxRatio(t: Signals, current: Signals, n: nat): real
    requires n <= SIGNAL_COUNT
  {
    if n == 0 then 0.0 else MaxReal(MaxRatio(t, current, n - 1), Ratio(t, current, n - 1))
  }

  function Breaches(t: Signals, current: Signals, n: nat): nat
    requires n <= SIGNAL_COUNT
  {
    if n == 0 then 0 else Breaches(t, current, n - 1) + if Ratio(t, current, n - 1) > 1.0 then 1 else 0
  }

  function RapidRises(t: Signals, previous: Option<Signals>, current: Signals, n: nat): nat
    requires n <= SIGNAL_COUNT
  {
    if n == 0 then 0
    else RapidRises(t, previous, current, n - 1) + if RisesFast(t, previous, current, n - 1) then 1 else 0
  }

  function RiskOf(maxRatio: real, breaches: nat, rapidRises: nat): Risk {
    if maxRatio >= CONSTRAINED_RATIO || breaches >= 3 then Constrained
    else if maxRatio >= GUARDED_RATIO || breaches >= 2 || rapidRises >= 2 then Guarded
    else Nominal
  }

  function Classified(s: RegimeState, current: Signals): (Risk, real) {
    var maxRatio := MaxRatio(s.thresholds, current, SIGNAL_COUNT);
    (RiskOf(maxRatio, Breaches(s.thresholds, current, SIGNAL_COUNT),
            RapidRises(s.thresholds, s.previous, current, SIGNAL_COUNT)), maxRatio)
  }

  // -------------------------------------------------------------------- learning

  predicate ColdStartSafe(current: Signals) {
    forall i | 0 <= i < SIGNAL_COUNT && i in {0, 1, 2, 3, 8} ::
      current[i] <= THRESHOLD_FLOORS[i] * CONSTRAINED_RATIO
  }

  predicate AdmitsBaseline(s: RegimeState, o: Observation, current: Signals, candidate: Risk) {
    && !o.fluidityDegraded
    && o.p95CycleMs.Finite? && 0.0 < o.p95CycleMs.value < 60.0
    && (forall i | 0 <= i < SIGNAL_COUNT :: current[i] <= 1.0)
    && (if PhaseOf(s) == ColdStart then ColdStartSafe(current) else candidate == Nominal)
  }

  function Column(window: seq<Signals>, signal: nat): (c: seq<real>)
    requires signal < SIGNAL_COUNT
    ensures |c| == |window| && forall i | 0 <= i < |c| :: c[i] == window[i][signal]
  {
    seq(|window|, i requires 0 <= i < |window| => window[i][signal])
  }

  function PercentileIndex(n: nat): (k: nat)
    requires 0 < n
    ensures k < n
  {
    (n - 1) * 95 / 100
  }

  function Percentile(window: seq<Signals>, signal: nat): real
    requires window != [] && signal < SIGNAL_COUNT
  {
    OrderStatistic(Column(window, signal), PercentileIndex(|window|))
  }

  function LearnedThreshold(window: seq<Signals>, signal: nat): real
    requires window != [] && signal < SIGNAL_COUNT
  {
    Clamp(Percentile(window, signal) * ADAPTIVE_MARGIN, THRESHOLD_FLOORS[signal], MAX_LEARNED_THRESHOLD)
  }

  function LearnedThresholds(window: seq<Signals>): (t: Signals)
    requires window != []
  {
    seq(SIGNAL_COUNT, i requires 0 <= i < SIGNAL_COUNT => LearnedThreshold(window, i))
  }

  function Pushed(s: RegimeState, sample: Signals): RegimeState {
    var kept := if |s.samples| == BASELINE_WINDOW_CAPACITY then s.samples[1..] else s.samples;
    var samples := kept + [sample];
    var accepted := SaturatingIncrement(s.accepted);
    var refresh := |samples| == BASELINE_MIN_SAMPLES || accepted % THRESHOLD_REFRESH_SAMPLES == 0;
    s.(samples := samples, accepted := accepted,
       thresholds := if refresh then LearnedThresholds(samples) else s.thresholds)
  }

  function Candidate(s: RegimeState, current: Signals): (Risk, real) {
    if PhaseOf(s) == ColdStart then (Nominal, 0.0) else Classified(s, current)
  }

  function RegimeObserved(s: RegimeState, o: Observation): RegimeState {
    match Normalized(o)
    case None => s
    case Some(current) =>
      var counted := if PhaseOf(s) == Shadow then s.(shadow := SaturatingIncrement(s.shadow)) else s;
      var learned :=
        if AdmitsBaseline(counted, o, current, Candidate(s, current).0) then Pushed(counted, current) else counted;
      learned.(previous := Some(current))
  }

  function Decided(s: RegimeState, o: Observation): Decision {
    match Normalized(o)
    case None => Decision(PhaseOf(s), Nominal, Regime(o), false, 0.0, |s.samples|)
    case Some(current) =>
      var (candidate, score) := Candidate(s, current);
      Decision(PhaseOf(s), if PhaseOf(s) == Active then candidate else Nominal, Regime(o), candidate != Nominal,
               score, |RegimeObserved(s, o).samples|)
  }

  class RegimeEnvelope {
    var samples: seq<Signals>
    const thresholds: array<real>
    var previous: Option<Signals>
    var acceptedTotal: U64
    var shadowObservations: U64

    ghost predicate Valid() {
      thresholds.Length == SIGNAL_COUNT
    }

    ghost function State(): RegimeState
      requires Valid()
      reads this, thresholds
    {
      RegimeState(samples, thresholds[..], previous, acceptedTotal, shadowObservations)
    }

    constructor ()
      ensures Valid() && fresh(thresholds)
      ensures State() == FRESH
    {
      thresholds := new real[SIGNAL_COUNT](i requires 0 <= i < SIGNAL_COUNT => THRESHOLD_FLOORS[i]);
      samples, previous, acceptedTotal, shadowObservations := [], None, 0, 0;
      new;
      assert thresholds[..] == THRESHOLD_FLOORS;
    }

    method Phase() returns (phase: Phase)
      requires Valid()
      ensures phase == PhaseOf(State())
    {
      phase := if |samples| < BASELINE_MIN_SAMPLES then ColdStart
               else if shadowObservations < SHADOW_MIN_OBSERVATIONS then Shadow
               else Active;
    }

    method Classify(current: Signals) returns (risk: Risk, maxRatio: real)
      requires Valid()
      ensures (risk, maxRatio) == Classified(State(), current)
    {
      var breaches, rapidRises := 0, 0;
      maxRatio := 0.0;
      for index := 0 to SIGNAL_COUNT
        invariant maxRatio == MaxRatio(State().thresholds, current, index)
        invariant breaches == Breaches(State().thresholds, current, index)
        invariant rapidRises == RapidRises(State().thresholds, previous, current, index)
      {
        var threshold := MaxReal(thresholds[index], 0.001);
        var ratio := current[index] / threshold;
        maxRatio := MaxReal(maxRatio, ratio);
        breaches := breaches + if ratio > 1.0 then 1 else 0;
        if previous.Some? {
          var riseFloor := MaxReal(threshold * 0.35, 0.10);
          if current[index] > threshold * 0.80 && current[index] - previous.value[index] > riseFloor {
            rapidRises := rapidRises + 1;
          }
        }
      }
      risk := RiskOf(maxRatio, breaches, rapidRises);
    }

    method Push(sample: Signals)
      requires Valid()
      modifies this, thresholds
      ensures State() == Pushed(old(State()), sample)
    {
      if |samples| == BASELINE_WINDOW_CAPACITY {
        samples := samples[1..];
      }
      samples := samples + [sample];
      acceptedTotal := SaturatingIncrement(acceptedTotal);
      if |samples| == BASELINE_MIN_SAMPLES || acceptedTotal % THRESHOLD_REFRESH_SAMPLES == 0 {
        RecomputeThresholds();
      }
    }

    method RecomputeThresholds()
      requires Valid()
      modifies thresholds
      ensures samples != [] ==> thresholds[..] == LearnedThresholds(samples)
      ensures samples == [] ==> thresholds[..] == old(thresholds[..])
    {
      if samples == [] {
        return;
      }
      LearnInto(thresholds, samples, LearnedThresholds(samples));
    }

    static method LearnInto(thresholds: array<real>, window: seq<Signals>, ghost learned: Signals)
      requires thresholds.Length == SIGNAL_COUNT && window != [] && learned == LearnedThresholds(window)
      modifies thresholds
      ensures thresholds[..] == learned
    {
      var percentileIndex := PercentileIndex(|window|);
      for signal := 0 to SIGNAL_COUNT
        invariant forall i | 0 <= i < signal :: thresholds[i] == learned[i]
      {
        var threshold := Relearn(window, signal, percentileIndex, learned);
        thresholds[signal] := threshold;
      }
    }

    static method Relearn(window: seq<Signals>, signal: nat, percentileIndex: nat, ghost learned: Signals)
      returns (threshold: real)
      requires signal < SIGNAL_COUNT && window != [] && percentileIndex == PercentileIndex(|window|)
      requires learned == LearnedThresholds(window)
      ensures threshold == learned[signal]
    {
      var percentile := SelectPercentile(window, signal, percentileIndex);
      threshold := Clamp(percentile * ADAPTIVE_MARGIN, THRESHOLD_FLOORS[signal], MAX_LEARNED_THRESHOLD);
    }

    /** Copies one signal out of the window and selects in the copy. */
    static method SelectPercentile(window: seq<Signals>, signal: nat, k: nat) returns (percentile: real)
      requires signal < SIGNAL_COUNT && k < |window|
      ensures percentile == OrderStatistic(Column(window, signal), k)
    {
      var column := Column(window, signal);
      var values := new real[|column|](i requires 0 <= i < |column| => column[i]);
      assert values[..] == column;
      SelectLeast(values, k, (x: real) => x);
      percentile := values[k];
      assert Keys(values[..], (x: real) => x) == values[..];
      SelectionFindsOrderStatistic(column, values[..], k);
      OrderStatisticIsUnique(column, k, percentile, OrderStatistic(column, k));
    }

    method Observe(o: Observation) returns (decision: Decision)
      requires Valid()
      modifies this, thresholds
      ensures State() == RegimeObserved(old(State()), o)
      ensures decision == Decided(old(State()), o)
    {
      var phase := Phase();
      var normalized := Normalized(o);
      if normalized.None? {
        return Decision(phase, Nominal, Regime(o), false, 0.0, |samples|);
      }
      var current := normalized.value;
      var candidate, score := Nominal, 0.0;
      if phase != ColdStart {
        candidate, score := Classify(current);
      }
      if phase == Shadow {
        shadowObservations := SaturatingIncrement(shadowObservations);
      }
      var admitted := AdmitBaseline(o, current, candidate);
      if admitted {
        Push(current);
      }
      previous := Some(current);
      decision := Decision(phase, if phase == Active then candidate else Nominal, Regime(o), candidate != Nominal,
                           score, |samples|);
    }

    method AdmitBaseline(o: Observation, current: Signals, candidate: Risk) returns (admitted: bool)
      requires Valid()
      ensures admitted == AdmitsBaseline(State(), o, current, candidate)
    {
      var phase := Phase();
      admitted :=
        && !o.fluidityDegraded
        && o.p95CycleMs.Finite? && 0.0 < o.p95CycleMs.value < 60.0
        && (forall i | 0 <= i < SIGNAL_COUNT :: current[i] <= 1.0)
        && (if phase == ColdStart then ColdStartSafe(current) else candidate == Nominal);
    }
  }

  type EnvelopeState = e: seq<RegimeState> | |e| == 4 witness [FRESH, FRESH, FRESH, FRESH]

  const FRESH_ENVELOPE: EnvelopeState := [FRESH, FRESH, FRESH, FRESH]

  function EnvelopeObserved(e: EnvelopeState, o: Observation): EnvelopeState {
    var i := Regime(o).Index();
    e[i := RegimeObserved(e[i], o)]
  }

  class AdaptiveStutterEnvelope {
    const regimes: seq<RegimeEnvelope>

    ghost predicate Valid() {
      && |regimes| == 4
      && (forall i | 0 <= i < 4 :: regimes[i].Valid())
      && (forall i, j | 0 <= i < j < 4 :: regimes[i] != regimes[j] && regimes[i].thresholds != regimes[j].thresholds)
    }

    ghost function State(): EnvelopeState
      requires Valid()
      reads regimes, set i | 0 <= i < |regimes| :: regimes[i].thresholds
    {
      [regimes[0].State(), regimes[1].State(), regimes[2].State(), regimes[3].State()]
    }

    constructor ()
      ensures Valid()
      ensures forall i | 0 <= i < 4 :: fresh(regimes[i]) && fresh(regimes[i].thresholds)
      ensures State() == FRESH_ENVELOPE
    {
      var quiet := new RegimeEnvelope();
      var interactive := new RegimeEnvelope();
      var media := new RegimeEnvelope();
      var compute := new RegimeEnvelope();
      regimes := [quiet, interactive, media, compute];
    }

    method Observe(o: Observation) returns (decision: Decision)
      requires Valid()
      modifies regimes[Regime(o).Index()], regimes[Regime(o).Index()].thresholds
      ensures State() == EnvelopeObserved(old(State()), o)
      ensures decision == Decided(old(State())[Regime(o).Index()], o)
    {
      decision := regimes[Regime(o).Index()].Observe(o);
    }
  }
}
