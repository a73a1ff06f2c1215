/** One observation of the stutter envelope: its workload regime and its normalised signals. */
module StutterSignals {
  import opened Wrappers

  /** An IEEE reading: finite values are exact reals, rounding is not modelled. */
  datatype Float = Finite(value: real) | PositiveInfinity | NegativeInfinity | NotANumber {
    /** `self >= bound` */
    predicate AtLeast(bound: real) {
      match this
      case Finite(v) => v >= bound
      case PositiveInfinity => true
      case NegativeInfinity => false
      case NotANumber => false
    }

    /** `self > bound` */
    predicate Above(bound: real) {
      match this
      case Finite(v) => v > bound
      case PositiveInfinity => true
      case NegativeInfinity => false
      case NotANumber => false
    }
  }

  const SIGNAL_COUNT := 9

  type Signals = s: seq<real> | |s| == SIGNAL_COUNT
    witness [0.0, 0.0, 0.0, 0.0, 0.0, 0.0, 0.0, 0.0, 0.0]

  const NORMALIZERS: Signals :=
    [384.0 * 1048576.0, 0.15, 512.0 * 1024.0, 1500.0, 0.80, 0.60, 35.0, 60.0, 0.35]
  const MAX_NORMALIZED_SAMPLE := 4.0

  datatype WorkloadRegime = Quiet | Interactive | Media | Compute {
    function Index(): (i: nat)
      ensures i < 4
    {
      match this
      case Quiet => 0
      case Interactive => 1
      case Media => 2
      case Compute => 3
    }
  }

  datatype Observation = Observation(
    p95CycleMs: Float,
    refaultBytesPerSec: Float,
    stallFraction: Float,
    swapGrowthBytesPerSec: Float,
    thrashingScore: Float,
    cpuMaxBusy: Float,
    gpuRenderLoad: Float,
    compositorCpuPct: Float,
    predictedFluidity3s: Float,
    realtimeMediaActive: bool,
    mediaOutputActive: bool,
    interactionQ: Float,
    fluidityDegraded: bool,
    pressureSampleStale: bool)

  function Regime(o: Observation): WorkloadRegime {
    if o.realtimeMediaActive || o.mediaOutputActive then Media
    else if o.interactionQ.AtLeast(0.05) then Interactive
    else if o.cpuMaxBusy.AtLeast(0.50) || o.gpuRenderLoad.AtLeast(0.35) then Compute
    else Quiet
  }

  function MaxReal(a: real, b: real): real {
    if a < b then b else a
  }

  function Clamp(v: real, low: real, high: real): real {
    if v < low then low else if high < v then high else v
  }

  /** A forecast that is missing or not a number carries no risk; an infinite one is healthy. */
  function PredictedFluidityRisk(f: Float): real {
    if f.Finite? && f.value > 0.0 then MaxReal(0.65 - f.value, 0.0) else 0.0
  }

  function RawSignals(o: Observation): (raw: seq<Float>)
    ensures |raw| == SIGNAL_COUNT
  {
    [o.refaultBytesPerSec, o.stallFraction, o.swapGrowthBytesPerSec, o.thrashingScore, o.cpuMaxBusy,
     o.gpuRenderLoad, o.compositorCpuPct, o.p95CycleMs, Finite(PredictedFluidityRisk(o.predictedFluidity3s))]
  }

  predicate AllFinite(raw: seq<Float>) {
    forall i | 0 <= i < |raw| :: raw[i].Finite?
  }

  function Normalized(o: Observation): Option<Signals> {
    var raw := RawSignals(o);
    if o.pressureSampleStale || !AllFinite(raw) then None
    else
      Some(seq(SIGNAL_COUNT, i requires 0 <= i < SIGNAL_COUNT =>
        Clamp(MaxReal(raw[i].value, 0.0) / NORMALIZERS[i], 0.0, MAX_NORMALIZED_SAMPLE)))
  }

  /** IEEE comparisons: false for a reading that is not a number. */
  predicate ReadsAtLeast(f: Float, bound: real) {
    f == PositiveInfinity || (f.Finite? && bound <= f.value)
  }

  /** Which regime an observation belongs to: media before interaction before compute. */
  lemma RegimeMeaning(o: Observation)
    ensures Regime(o) == Media <==> o.realtimeMediaActive || o.mediaOutputActive
    ensures Regime(o) == Interactive <==>
              !o.realtimeMediaActive && !o.mediaOutputActive && ReadsAtLeast(o.interactionQ, 0.05)
    ensures Regime(o) == Quiet <==>
              && !o.realtimeMediaActive && !o.mediaOutputActive && !ReadsAtLeast(o.interactionQ, 0.05)
              && !ReadsAtLeast(o.cpuMaxBusy, 0.50) && !ReadsAtLeast(o.gpuRenderLoad, 0.35)
  {
  }

  /** `x` is the reading in units of its limit: nothing below zero, and never more than four. */
  predicate InUnitsOf(x: real, reading: Float, limit: real) {
    reading.Finite?
    && if reading.value <= 0.0 then x == 0.0
       else if reading.value <= 4.0 * limit then x * limit == reading.value
       else x == 4.0
  }

  lemma InUnits(reading: Float, limit: real)
    requires reading.Finite? && 0.0 < limit
    ensures InUnitsOf(Clamp(MaxReal(reading.value, 0.0) / limit, 0.0, MAX_NORMALIZED_SAMPLE), reading, limit)
  {
    var v := MaxReal(reading.value, 0.0);
    assert v / limit * limit == v;
    if 4.0 * limit < v {
      assert v / limit > 4.0;
    } else {
      assert 0.0 <= v / limit <= 4.0;
    }
  }

  lemma RawSignalsAre(o: Observation)
    ensures var raw := RawSignals(o);
            && raw[0] == o.refaultBytesPerSec && raw[1] == o.stallFraction && raw[2] == o.swapGrowthBytesPerSec
            && raw[3] == o.thrashingScore && raw[4] == o.cpuMaxBusy && raw[5] == o.gpuRenderLoad
            && raw[6] == o.compositorCpuPct && raw[7] == o.p95CycleMs
            && raw[8] == Finite(PredictedFluidityRisk(o.predictedFluidity3s))
            && (AllFinite(raw) <==> forall i | 0 <= i < 8 :: raw[i].Finite?)
  {
  }

  /** What makes an observation usable, and each signal in the units of the reading it comes from.
      The last signal is how far the forecast lies below 0.65; a forecast of nothing is no risk. */
  lemma NormalizedMeaning(o: Observation)
    ensures Normalized(o).Some? <==>
              && !o.pressureSampleStale
              && o.refaultBytesPerSec.Finite? && o.stallFraction.Finite? && o.swapGrowthBytesPerSec.Finite?
              && o.thrashingScore.Finite? && o.cpuMaxBusy.Finite? && o.gpuRenderLoad.Finite?
              && o.compositorCpuPct.Finite? && o.p95CycleMs.Finite?
    ensures Normalized(o).Some? ==>
              var x, f := Normalized(o).value, o.predictedFluidity3s;
              && InUnitsOf(x[0], o.refaultBytesPerSec, 402_653_184.0)
              && InUnitsOf(x[1], o.stallFraction, 0.15)
              && InUnitsOf(x[2], o.swapGrowthBytesPerSec, 524_288.0)
              && InUnitsOf(x[3], o.thrashingScore, 1_500.0)
              && InUnitsOf(x[4], o.cpuMaxBusy, 0.80)
              && InUnitsOf(x[5], o.gpuRenderLoad, 0.60)
              && InUnitsOf(x[6], o.compositorCpuPct, 35.0)
              && InUnitsOf(x[7], o.p95CycleMs, 60.0)
              && (if f.Finite? && 0.0 < f.value < 0.65 then x[8] * 0.35 == 0.65 - f.value else x[8] == 0.0)
  {
    RawSignalsAre(o);
    if Normalized(o).Some? {
      var raw, x := RawSignals(o), Normalized(o).value;
      forall i | 0 <= i < 9 ensures InUnitsOf(x[i], raw[i], NORMALIZERS[i]) {
        InUnits(raw[i], NORMALIZERS[i]);
      }
    }
  }
}
