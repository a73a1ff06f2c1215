/** The two-lane governor: every request is split into a fixed part and an adaptive part,
    each part drives its own hold, and the budget level is the higher of the two. */
module OverheadGovernor {
  import opened Wrappers
  import opened LevelHolds

  /** The signals that `requested_level` reads. */
  datatype OverheadInput = OverheadInput(
    p95CycleMs: real,
    reasonAvgMs: real,
    memoryPressure: real,
    pressureSampleStale: bool,
    fluidityDegraded: bool,
    realtimeMediaActive: bool,
    interactionQ: real,
    cpuMaxBusy: real,
    compositorCpuPct: real,
    predictedFluidity3s: real,
    swapDeltaBps: real,
    thrashingScore: real,
    refaultDeltaPerSec: real,
    vmPageSizeBytes: U64,
    stallFraction: real,
    adaptiveStutterGuarded: bool,
    adaptiveStutterConstrained: bool)

  const KIB := 1024.0
  const MIB := 1048576.0
  const SWAP_GROWTH_GUARDED_BPS := 512.0 * KIB
  const SWAP_GROWTH_CONSTRAINED_BPS := 1024.0 * KIB
  const THRASHING_GUARDED := 1500.0
  const THRASHING_CONSTRAINED := 5000.0
  const REFAULT_GUARDED_BPS := 384.0 * MIB
  const REFAULT_CONSTRAINED_BPS := 1280.0 * MIB
  const STALL_FRACTION_GUARDED := 0.15
  const STALL_FRACTION_CONSTRAINED := 0.35
  const REALTIME_PRESSURE_CONSTRAINED := 0.50
  const CPU_BUSY_GUARDED := 0.80
  const CPU_BUSY_CONSTRAINED := 0.95
  const COMPOSITOR_CPU_GUARDED_PCT := 35.0
  const COMPOSITOR_CPU_CONSTRAINED_PCT := 60.0
  const INTERACTION_ACTIVE_Q := 0.05
  const PREDICTED_FLUIDITY_GUARDED := 0.65

  function PageSize(i: OverheadInput): nat {
    if i.vmPageSizeBytes < 4096 then 4096
    else if 65536 < i.vmPageSizeBytes then 65536
    else i.vmPageSizeBytes
  }

  function RefaultBytesPerSec(i: OverheadInput): real {
    if i.refaultDeltaPerSec <= 0.0 then 0.0 else i.refaultDeltaPerSec * (PageSize(i) as real)
  }

  predicate MemoryFlowGuarded(i: OverheadInput) {
    && !i.pressureSampleStale
    && (|| i.swapDeltaBps > SWAP_GROWTH_GUARDED_BPS
        || i.thrashingScore > THRASHING_GUARDED
        || RefaultBytesPerSec(i) > REFAULT_GUARDED_BPS
        || i.stallFraction >= STALL_FRACTION_GUARDED)
  }

  predicate MemoryFlowConstrained(i: OverheadInput) {
    && !i.pressureSampleStale
    && (|| i.swapDeltaBps > SWAP_GROWTH_CONSTRAINED_BPS
        || i.thrashingScore > THRASHING_CONSTRAINED
        || RefaultBytesPerSec(i) > REFAULT_CONSTRAINED_BPS
        || i.stallFraction >= STALL_FRACTION_CONSTRAINED)
  }

  predicate PredictedFluidityGuarded(i: OverheadInput) {
    0.0 < i.predictedFluidity3s < PREDICTED_FLUIDITY_GUARDED
  }

  predicate ComputeGuarded(i: OverheadInput) {
    || (!i.pressureSampleStale && i.cpuMaxBusy >= CPU_BUSY_GUARDED)
    || i.compositorCpuPct >= COMPOSITOR_CPU_GUARDED_PCT
    || PredictedFluidityGuarded(i)
  }

  predicate ComputeConstrained(i: OverheadInput) {
    || (!i.pressureSampleStale && i.cpuMaxBusy >= CPU_BUSY_CONSTRAINED)
    || i.compositorCpuPct >= COMPOSITOR_CPU_CONSTRAINED_PCT
  }

  function RequestedLevel(i: OverheadInput): Level {
    var interactiveVisualContention :=
      i.interactionQ >= INTERACTION_ACTIVE_Q && i.compositorCpuPct >= COMPOSITOR_CPU_GUARDED_PCT;
    var realtimeMemoryContention :=
      && !i.pressureSampleStale
      && i.realtimeMediaActive
      && (i.memoryPressure >= REALTIME_PRESSURE_CONSTRAINED || MemoryFlowGuarded(i));
    if || i.p95CycleMs >= 120.0
       || i.reasonAvgMs >= 100.0
       || (!i.pressureSampleStale && i.memoryPressure >= 0.80)
       || i.adaptiveStutterConstrained
       || MemoryFlowConstrained(i)
       || ComputeConstrained(i)
       || interactiveVisualContention
       || realtimeMemoryContention
    then Constrained
    else if || i.p95CycleMs >= 60.0
            || i.reasonAvgMs >= 50.0
            || (!i.pressureSampleStale && i.memoryPressure >= 0.65)
            || i.fluidityDegraded
            || i.pressureSampleStale
            || i.adaptiveStutterGuarded
            || i.realtimeMediaActive
            || MemoryFlowGuarded(i)
            || ComputeGuarded(i)
    then Guarded
    else Nominal
  }

  /** The input as the fixed lane sees it. */
  function FixedInput(i: OverheadInput): OverheadInput {
    var unflagged := i.(adaptiveStutterGuarded := false, adaptiveStutterConstrained := false);
    if i.pressureSampleStale then
      unflagged.(memoryPressure := 0.0, pressureSampleStale := false, cpuMaxBusy := 0.0, swapDeltaBps := 0.0,
                 thrashingScore := 0.0, refaultDeltaPerSec := 0.0, stallFraction := 0.0)
    else
      unflagged
  }

  function FixedRequest(i: OverheadInput): Level {
    RequestedLevel(FixedInput(i))
  }

  function AdaptiveRequest(i: OverheadInput): Level {
    if FixedRequest(i).Rank() < RequestedLevel(i).Rank() then RequestedLevel(i) else Nominal
  }

  const HARD_RECOVERY_CYCLES: U32 := 120
  const ADAPTIVE_RECOVERY_CYCLES: U32 := 15
  /** Instants and durations are in milliseconds. */
  const HARD_RECOVERY_MAX: nat := 240_000
  const ADAPTIVE_RECOVERY_MAX: nat := 30_000
  const HARD := Policy(HARD_RECOVERY_CYCLES, HARD_RECOVERY_MAX)
  const ADAPTIVE := Policy(ADAPTIVE_RECOVERY_CYCLES, ADAPTIVE_RECOVERY_MAX)

  datatype Governor = Governor(hard: Hold, adaptive: Hold) {
    function Level(): Level {
      MaxLevel(hard.level, adaptive.level)
    }
  }

  datatype Sample = Sample(input: OverheadInput, now: int)

  const DEFAULT_GOVERNOR := Governor(DEFAULT_HOLD, DEFAULT_HOLD)

  function Governed(g: Governor, s: Sample): Governor {
    Governor(Observed(g.hard, Request(FixedRequest(s.input), s.now), HARD),
             Observed(g.adaptive, Request(AdaptiveRequest(s.input), s.now), ADAPTIVE))
  }

  function Run(g: Governor, trace: seq<Sample>): Governor {
    if trace == [] then g else Governed(Run(g, trace[..|trace| - 1]), trace[|trace| - 1])
  }

  class AdaptiveOverheadGovernor {
    const hard: LevelHold
    const adaptive: LevelHold

    ghost predicate Valid() {
      hard != adaptive
    }

    ghost function State(): Governor
      reads hard, adaptive
    {
      Governor(hard.State(), adaptive.State())
    }

    constructor ()
      ensures Valid() && fresh(hard) && fresh(adaptive)
      ensures State() == DEFAULT_GOVERNOR
    {
      hard := new LevelHold();
      adaptive := new LevelHold();
    }

    /** Returns the level of the budget. */
    method ObserveAt(input: OverheadInput, now: int) returns (level: Level)
      requires Valid()
      modifies hard, adaptive
      ensures State() == Governed(old(State()), Sample(input, now))
      ensures level == State().Level()
      ensures RequestedLevel(input).Rank() <= level.Rank()
      ensures old(State()).Level().Rank() <= level.Rank() + 1
    {
      SplitCoversRequest(input);
      var requested := RequestedLevel(input);
      var fixedRequested := RequestedLevel(FixedInput(input));
      var adaptiveRequested := if fixedRequested.Rank() < requested.Rank() then requested else Nominal;
      hard.Observe(fixedRequested, now, HARD_RECOVERY_CYCLES, HARD_RECOVERY_MAX);
      adaptive.Observe(adaptiveRequested, now, ADAPTIVE_RECOVERY_CYCLES, ADAPTIVE_RECOVERY_MAX);
      level := MaxLevel(hard.level, adaptive.level);
    }
  }

  // ---------------------------------------------------------- what is requested

  lemma RefaultsAbove(i: OverheadInput, limit: real)
    requires 0.0 < limit
    ensures var page := if i.vmPageSizeBytes < 4096 then 4096.0
                        else if i.vmPageSizeBytes <= 65536 then i.vmPageSizeBytes as real else 65536.0;
            RefaultBytesPerSec(i) > limit <==> i.refaultDeltaPerSec * page > limit
  {
    assert PageSize(i) >= 1;
    if i.refaultDeltaPerSec <= 0.0 {
      assert i.refaultDeltaPerSec * (PageSize(i) as real) <= 0.0;
    }
  }

  /** The request in terms of the limits themselves, the overlapping conditions removed: Nominal asks
      for a fresh sample with every signal below its lower limit, and Constrained takes one signal
      at its upper limit or one of two joint contentions. */
  lemma RequestedLevelMeaning(i: OverheadInput)
    ensures var page := if i.vmPageSizeBytes < 4096 then 4096.0
                        else if i.vmPageSizeBytes <= 65536 then i.vmPageSizeBytes as real else 65536.0;
            RequestedLevel(i) == Nominal <==>
              && !i.pressureSampleStale && !i.fluidityDegraded && !i.realtimeMediaActive
              && !i.adaptiveStutterGuarded && !i.adaptiveStutterConstrained
              && i.p95CycleMs < 60.0 && i.reasonAvgMs < 50.0
              && i.memoryPressure < 0.65 && i.cpuMaxBusy < 0.80 && i.stallFraction < 0.15
              && i.swapDeltaBps <= 524_288.0 && i.thrashingScore <= 1_500.0
              && i.refaultDeltaPerSec * page <= 402_653_184.0
              && i.compositorCpuPct < 35.0
              && !(0.0 < i.predictedFluidity3s < 0.65)
    ensures var page := if i.vmPageSizeBytes < 4096 then 4096.0
                        else if i.vmPageSizeBytes <= 65536 then i.vmPageSizeBytes as real else 65536.0;
            RequestedLevel(i) == Constrained <==>
              || i.p95CycleMs >= 120.0 || i.reasonAvgMs >= 100.0 || i.compositorCpuPct >= 60.0
              || i.adaptiveStutterConstrained
              || (i.interactionQ >= 0.05 && i.compositorCpuPct >= 35.0)
              || (!i.pressureSampleStale
                  && (|| i.memoryPressure >= 0.80 || i.cpuMaxBusy >= 0.95 || i.stallFraction >= 0.35
                      || i.swapDeltaBps > 1_048_576.0 || i.thrashingScore > 5_000.0
                      || i.refaultDeltaPerSec * page > 1_342_177_280.0))
              || (!i.pressureSampleStale && i.realtimeMediaActive
                  && (|| i.memoryPressure >= 0.50 || i.stallFraction >= 0.15
                      || i.swapDeltaBps > 524_288.0 || i.thrashingScore > 1_500.0
                      || i.refaultDeltaPerSec * page > 402_653_184.0))
  {
    RefaultsAbove(i, 402_653_184.0);
    RefaultsAbove(i, 1_342_177_280.0);
  }

  // ------------------------------------------------------- protection at a step

  /** The two parts lose nothing: the fixed part never exceeds the request, and together
      they are the request. A stale sample's fixed part forgets every cached reading. */
  lemma SplitCoversRequest(i: OverheadInput)
    ensures FixedRequest(i).Rank() <= RequestedLevel(i).Rank()
    ensures MaxLevel(FixedRequest(i), AdaptiveRequest(i)) == RequestedLevel(i)
    ensures FixedRequest(i) == RequestedLevel(i) ==> AdaptiveRequest(i) == Nominal
  {
    var f := FixedInput(i);
    assert RefaultBytesPerSec(f) == if i.pressureSampleStale then 0.0 else RefaultBytesPerSec(i);
  }

  lemma NeverUnderProtects(trace: seq<Sample>, s: Sample)
    ensures var before := Run(DEFAULT_GOVERNOR, trace).Level();
            var after := Run(DEFAULT_GOVERNOR, trace + [s]).Level();
            RequestedLevel(s.input).Rank() <= after.Rank() && before.Rank() <= after.Rank() + 1
  {
    SplitCoversRequest(s.input);
    assert (trace + [s])[..|trace|] == trace;
  }

  // ------------------------------------------------------- each lane on its own

  function FixedRequests(trace: seq<Sample>): (r: seq<Request>)
    ensures |r| == |trace| && forall i | 0 <= i < |trace| :: r[i].now == trace[i].now
  {
    seq(|trace|, i requires 0 <= i < |trace| => Request(FixedRequest(trace[i].input), trace[i].now))
  }

  function AdaptiveRequests(trace: seq<Sample>): (r: seq<Request>)
    ensures |r| == |trace| && forall i | 0 <= i < |trace| :: r[i].now == trace[i].now
  {
    seq(|trace|, i requires 0 <= i < |trace| => Request(AdaptiveRequest(trace[i].input), trace[i].now))
  }

  /** Each hold is the replay of its own half of the requests: neither lane sees the other. */
  lemma {:induction false} LanesAreIndependent(g: Governor, trace: seq<Sample>)
    ensures Run(g, trace).hard == Replay(g.hard, FixedRequests(trace), HARD)
    ensures Run(g, trace).adaptive == Replay(g.adaptive, AdaptiveRequests(trace), ADAPTIVE)
  {
    if trace == [] {
    } else {
      var n := |trace| - 1;
      LanesAreIndependent(g, trace[..n]);
      assert FixedRequests(trace)[..n] == FixedRequests(trace[..n]);
      assert AdaptiveRequests(trace)[..n] == AdaptiveRequests(trace[..n]);
    }
  }

  // -------------------------------------------------- which lane hears which signal

  /** `y` stands in for `x` in the hard lane: a fresh sample with no stutter flag and the same signals,
      except that where `x` is stale the six readings of `y` are at rest. */
  predicate StandsIn(y: OverheadInput, x: OverheadInput) {
    && !y.pressureSampleStale && !y.adaptiveStutterGuarded && !y.adaptiveStutterConstrained
    && y.p95CycleMs == x.p95CycleMs && y.reasonAvgMs == x.reasonAvgMs
    && y.fluidityDegraded == x.fluidityDegraded && y.realtimeMediaActive == x.realtimeMediaActive
    && y.interactionQ == x.interactionQ && y.compositorCpuPct == x.compositorCpuPct
    && y.predictedFluidity3s == x.predictedFluidity3s && y.vmPageSizeBytes == x.vmPageSizeBytes
    && if x.pressureSampleStale then
         && y.memoryPressure <= 0.0 && y.cpuMaxBusy <= 0.0 && y.swapDeltaBps <= 0.0
         && y.thrashingScore <= 0.0 && y.refaultDeltaPerSec <= 0.0 && y.stallFraction <= 0.0
       else
         && y.memoryPressure == x.memoryPressure && y.cpuMaxBusy == x.cpuMaxBusy
         && y.swapDeltaBps == x.swapDeltaBps && y.thrashingScore == x.thrashingScore
         && y.refaultDeltaPerSec == x.refaultDeltaPerSec && y.stallFraction == x.stallFraction
  }

  predicate AllStandIn(ty: seq<Sample>, tx: seq<Sample>) {
    && |ty| == |tx|
    && forall i | 0 <= i < |tx| :: ty[i].now == tx[i].now && StandsIn(ty[i].input, tx[i].input)
  }

  /** The full request of each sample. */
  function FullRequests(trace: seq<Sample>): (r: seq<Request>)
    ensures |r| == |trace|
  {
    seq(|trace|, i requires 0 <= i < |trace| => Request(RequestedLevel(trace[i].input), trace[i].now))
  }

  /** The request of each `x` where it exceeds that of `y`, and otherwise Nominal. */
  function ExcessRequests(tx: seq<Sample>, ty: seq<Sample>): (r: seq<Request>)
    requires |tx| == |ty|
    ensures |r| == |tx|
  {
    seq(|tx|, i requires 0 <= i < |tx| =>
      var x, y := RequestedLevel(tx[i].input), RequestedLevel(ty[i].input);
      Request(if y.Rank() < x.Rank() then x else Nominal, tx[i].now))
  }

  lemma StandInAsksTheSame(y: OverheadInput, x: OverheadInput)
    requires StandsIn(y, x)
    ensures RequestedLevel(y) == FixedRequest(x)
  {
    assert RefaultBytesPerSec(y) == RefaultBytesPerSec(FixedInput(x));
  }

  /** The hard lane is the replay of the full requests of the stand-ins, and the adaptive lane of what
      the samples themselves ask beyond them. */
  lemma LanesByStandIn(g: Governor, tx: seq<Sample>, ty: seq<Sample>)
    requires AllStandIn(ty, tx)
    ensures Run(g, tx).hard == Replay(g.hard, FullRequests(ty), HARD)
    ensures Run(g, tx).adaptive == Replay(g.adaptive, ExcessRequests(tx, ty), ADAPTIVE)
  {
    LanesAreIndependent(g, tx);
    forall i | 0 <= i < |tx| ensures FullRequests(ty)[i] == FixedRequests(tx)[i]
                                     && ExcessRequests(tx, ty)[i] == AdaptiveRequests(tx)[i] {
      StandInAsksTheSame(ty[i].input, tx[i].input);
    }
    assert FullRequests(ty) == FixedRequests(tx);
    assert ExcessRequests(tx, ty) == AdaptiveRequests(tx);
  }

  predicate Plain(i: OverheadInput) {
    !i.pressureSampleStale && !i.adaptiveStutterGuarded && !i.adaptiveStutterConstrained
  }

  function NominalRequests(trace: seq<Sample>): (r: seq<Request>)
    ensures |r| == |trace|
  {
    seq(|trace|, i requires 0 <= i < |trace| => Request(Nominal, trace[i].now))
  }

  /** Fresh samples without stutter flags go to the hard lane alone, with all that they ask for. */
  lemma PlainSamplesAreHard(g: Governor, trace: seq<Sample>)
    requires forall i | 0 <= i < |trace| :: Plain(trace[i].input)
    ensures Run(g, trace).hard == Replay(g.hard, FullRequests(trace), HARD)
    ensures Run(g, trace).adaptive == Replay(g.adaptive, NominalRequests(trace), ADAPTIVE)
  {
    LanesByStandIn(g, trace, trace);
    assert ExcessRequests(trace, trace) == NominalRequests(trace);
  }

  lemma {:induction false} RunConcat(g: Governor, a: seq<Sample>, b: seq<Sample>)
    ensures Run(g, a + b) == Run(Run(g, a), b)
  {
    if b == [] {
      assert a + b == a;
    } else {
      assert (a + b)[..|a + b| - 1] == a + b[..|b| - 1];
      RunConcat(g, a, b[..|b| - 1]);
    }
  }

  lemma RunAfter(g: Governor, s: Sample, rest: seq<Sample>)
    ensures Run(g, [s] + rest) == Run(Governed(g, s), rest)
  {
    RunConcat(g, [s], rest);
    assert [s][..0] == [];
  }

  /** A plain Constrained request holds the budget at Constrained through any 119 further samples
      that span less than 240 seconds. */
  lemma HardRequestHolds(g: Governor, s: Sample, rest: seq<Sample>)
    requires Plain(s.input) && RequestedLevel(s.input) == Constrained && InOrder(rest)
    requires |rest| <= 119 && (rest != [] ==> rest[|rest| - 1].now - rest[0].now < 240_000)
    ensures Run(g, [s] + rest).hard.level == Constrained && Run(g, [s] + rest).Level() == Constrained
  {
    RunAfter(g, s, rest);
    StandInAsksTheSame(s.input, s.input);
    LanesAreIndependent(Governed(g, s), rest);
    HoldsOut(Governed(g, s).hard, FixedRequests(rest), HARD);
  }

  /** And the 120th lower request lets the hard lane fall, by one level. */
  lemma HardRequestReleases(g: Governor, s: Sample, rest: seq<Sample>)
    requires Plain(s.input) && RequestedLevel(s.input) == Constrained && InOrder(rest)
    requires |rest| == 120 && rest[118].now - rest[0].now < 240_000
    requires forall i | 0 <= i < 120 :: RequestedLevel(rest[i].input).Rank() < Constrained.Rank()
    ensures Run(g, [s] + rest).hard.level == Guarded
  {
    RunAfter(g, s, rest);
    StandInAsksTheSame(s.input, s.input);
    LanesAreIndependent(Governed(g, s), rest);
    forall i | 0 <= i < 120 ensures FixedRequests(rest)[i].level.Rank() < Constrained.Rank() {
      SplitCoversRequest(rest[i].input);
    }
    WaitsOut(Governed(g, s).hard, FixedRequests(rest)[..119], HARD);
  }

  /** Only a stutter flag or a stale sample makes this request Constrained. */
  predicate OnlyAdaptive(y: OverheadInput, x: OverheadInput) {
    StandsIn(y, x) && RequestedLevel(y) != Constrained && RequestedLevel(x) == Constrained
  }

  /** Such a request is held for any 14 further samples that span less than 30 seconds. */
  lemma AdaptiveRequestHolds(g: Governor, s: Sample, y: OverheadInput, rest: seq<Sample>)
    requires OnlyAdaptive(y, s.input) && InOrder(rest)
    requires |rest| <= 14 && (rest != [] ==> rest[|rest| - 1].now - rest[0].now < 30_000)
    ensures Run(g, [s] + rest).adaptive.level == Constrained && Run(g, [s] + rest).Level() == Constrained
  {
    RunAfter(g, s, rest);
    StandInAsksTheSame(y, s.input);
    LanesAreIndependent(Governed(g, s), rest);
    HoldsOut(Governed(g, s).adaptive, AdaptiveRequests(rest), ADAPTIVE);
  }

  /** And the 15th lower request lets the adaptive lane fall, by one level. */
  lemma AdaptiveRequestReleases(g: Governor, s: Sample, y: OverheadInput, rest: seq<Sample>)
    requires OnlyAdaptive(y, s.input) && InOrder(rest)
    requires |rest| == 15 && rest[13].now - rest[0].now < 30_000
    requires forall i | 0 <= i < 15 :: RequestedLevel(rest[i].input).Rank() < Constrained.Rank()
    ensures Run(g, [s] + rest).adaptive.level == Guarded
  {
    RunAfter(g, s, rest);
    StandInAsksTheSame(y, s.input);
    LanesAreIndependent(Governed(g, s), rest);
    forall i | 0 <= i < 15 ensures AdaptiveRequests(rest)[i].level.Rank() < Constrained.Rank() {
      SplitCoversRequest(rest[i].input);
    }
    WaitsOut(Governed(g, s).adaptive, AdaptiveRequests(rest)[..14], ADAPTIVE);
  }

  // ------------------------------------------------------------ non-interference

  /** The two samples agree on all that the fixed lane may use: everything except the stutter
      flags and, when both are stale, the six cached pressure and CPU readings. */
  predicate AgreeOnFixedSignals(x: OverheadInput, y: OverheadInput) {
    && x.p95CycleMs == y.p95CycleMs
    && x.reasonAvgMs == y.reasonAvgMs
    && x.pressureSampleStale == y.pressureSampleStale
    && x.fluidityDegraded == y.fluidityDegraded
    && x.realtimeMediaActive == y.realtimeMediaActive
    && x.interactionQ == y.interactionQ
    && x.compositorCpuPct == y.compositorCpuPct
    && x.predictedFluidity3s == y.predictedFluidity3s
    && x.vmPageSizeBytes == y.vmPageSizeBytes
    && (!x.pressureSampleStale ==>
          && x.memoryPressure == y.memoryPressure
          && x.cpuMaxBusy == y.cpuMaxBusy
          && x.swapDeltaBps == y.swapDeltaBps
          && x.thrashingScore == y.thrashingScore
          && x.refaultDeltaPerSec == y.refaultDeltaPerSec
          && x.stallFraction == y.stallFraction)
  }

  lemma {:induction false} NonInterference(g: Governor, tx: seq<Sample>, ty: seq<Sample>)
    requires |tx| == |ty|
    requires forall i | 0 <= i < |tx| :: tx[i].now == ty[i].now && AgreeOnFixedSignals(tx[i].input, ty[i].input)
    ensures Run(g, tx).hard == Run(g, ty).hard
  {
    LanesAreIndependent(g, tx);
    LanesAreIndependent(g, ty);
    assert FixedRequests(tx) == FixedRequests(ty);
  }

  /** Readings cached in stale samples have no influence at all, on either lane. */
  lemma {:induction false} StaleReadingsNeverMatter(g: Governor, tx: seq<Sample>, ty: seq<Sample>)
    requires |tx| == |ty|
    requires forall i | 0 <= i < |tx| ::
               && tx[i].now == ty[i].now && AgreeOnFixedSignals(tx[i].input, ty[i].input)
               && tx[i].input.adaptiveStutterGuarded == ty[i].input.adaptiveStutterGuarded
               && tx[i].input.adaptiveStutterConstrained == ty[i].input.adaptiveStutterConstrained
    ensures Run(g, tx) == Run(g, ty)
  {
    if tx != [] {
      StaleReadingsNeverMatter(g, tx[..|tx| - 1], ty[..|ty| - 1]);
    }
  }

  // ----------------------------------------------------------------- monotonicity

  /** `y` reports no better conditions than `x`: every signal is at least as bad. */
  predicate NoBetter(x: OverheadInput, y: OverheadInput) {
    && x.pressureSampleStale == y.pressureSampleStale
    && x.vmPageSizeBytes == y.vmPageSizeBytes
    && x.p95CycleMs <= y.p95CycleMs
    && x.reasonAvgMs <= y.reasonAvgMs
    && x.memoryPressure <= y.memoryPressure
    && (x.fluidityDegraded ==> y.fluidityDegraded)
    && (x.realtimeMediaActive ==> y.realtimeMediaActive)
    && x.interactionQ <= y.interactionQ
    && x.cpuMaxBusy <= y.cpuMaxBusy
    && x.compositorCpuPct <= y.compositorCpuPct
    && (PredictedFluidityGuarded(x) ==> PredictedFluidityGuarded(y))
    && x.swapDeltaBps <= y.swapDeltaBps
    && x.thrashingScore <= y.thrashingScore
    && x.refaultDeltaPerSec <= y.refaultDeltaPerSec
    && x.stallFraction <= y.stallFraction
    && (x.adaptiveStutterGuarded ==> y.adaptiveStutterGuarded)
    && (x.adaptiveStutterConstrained ==> y.adaptiveStutterConstrained)
  }

  lemma RefaultsAreMonotone(x: OverheadInput, y: OverheadInput)
    requires x.vmPageSizeBytes == y.vmPageSizeBytes && x.refaultDeltaPerSec <= y.refaultDeltaPerSec
    ensures RefaultBytesPerSec(x) <= RefaultBytesPerSec(y)
  {
  }

  lemma RequestsAreMonotone(x: OverheadInput, y: OverheadInput)
    requires NoBetter(x, y)
    ensures RequestedLevel(x).Rank() <= RequestedLevel(y).Rank()
  {
    RefaultsAreMonotone(x, y);
  }

  /** Both the full request and its fixed part grow. */
  predicate RequestsNoLess(x: OverheadInput, y: OverheadInput) {
    && FixedRequest(x).Rank() <= FixedRequest(y).Rank()
    && RequestedLevel(x).Rank() <= RequestedLevel(y).Rank()
  }

  lemma NoBetterRequestsNoLess(x: OverheadInput, y: OverheadInput)
    requires NoBetter(x, y)
    ensures RequestsNoLess(x, y)
  {
    RequestsAreMonotone(x, y);
    RequestsAreMonotone(FixedInput(x), FixedInput(y));
  }

  /** A lane that is not refreshed stays dominated by any lane with stricter limits. */
  lemma DominatedWhileFalling(a: Hold, b: Hold, ra: Request, rb: Request, pa: Policy, pb: Policy)
    requires Dominates(b, a) && StartedBy(a, ra.now) && ra.now == rb.now
    requires ra.level.Rank() < a.level.Rank()
    requires pa.cycles <= pb.cycles && pa.longest <= pb.longest
    ensures Dominates(Observed(b, rb, pb), Observed(a, ra, pa))
  {
  }

  /** A lane asked for at least what `a` is refreshed to dominates it at once. */
  lemma RefreshDominates(a: Hold, b: Hold, ra: Request, rb: Request, pa: Policy, pb: Policy)
    requires a.level.Rank() <= ra.level.Rank() <= rb.level.Rank()
    ensures Dominates(Observed(b, rb, pb), Observed(a, ra, pa))
  {
  }

  /** `y`'s hard lane dominates `x`'s, and one of `y`'s lanes dominates `x`'s adaptive lane. */
  predicate Covers(y: Governor, x: Governor) {
    && Dominates(y.hard, x.hard)
    && (Dominates(y.hard, x.adaptive) || Dominates(y.adaptive, x.adaptive))
  }

  lemma CoversStep(x: Governor, y: Governor, sx: Sample, sy: Sample)
    requires Covers(y, x) && StartedBy(x.hard, sx.now) && StartedBy(x.adaptive, sx.now)
    requires sx.now == sy.now && RequestsNoLess(sx.input, sy.input)
    ensures Covers(Governed(y, sy), Governed(x, sx))
  {
    var hx, hy := Request(FixedRequest(sx.input), sx.now), Request(FixedRequest(sy.input), sy.now);
    var ax, ay := Request(AdaptiveRequest(sx.input), sx.now), Request(AdaptiveRequest(sy.input), sy.now);
    DominatesStep(x.hard, y.hard, hx, hy, HARD, HARD);
    if ax.level.Rank() < x.adaptive.level.Rank() {
      if Dominates(y.hard, x.adaptive) {
        DominatedWhileFalling(x.adaptive, y.hard, ax, hy, ADAPTIVE, HARD);
      } else {
        DominatedWhileFalling(x.adaptive, y.adaptive, ax, ay, ADAPTIVE, ADAPTIVE);
      }
    } else if ax.level.Rank() <= ay.level.Rank() {
      RefreshDominates(x.adaptive, y.adaptive, ax, ay, ADAPTIVE, ADAPTIVE);
    } else {
      RefreshDominates(x.adaptive, y.hard, ax, hy, ADAPTIVE, HARD);
    }
  }

  lemma StartedAfter(g: Governor, s: Sample)
    requires StartedBy(g.hard, s.now) && StartedBy(g.adaptive, s.now)
    ensures StartedBy(Governed(g, s).hard, s.now) && StartedBy(Governed(g, s).adaptive, s.now)
  {
  }

  predicate InOrder(trace: seq<Sample>) {
    forall i, j | 0 <= i < j < |trace| :: trace[i].now <= trace[j].now
  }

  lemma {:induction false} RunCovers(tx: seq<Sample>, ty: seq<Sample>)
    requires InOrder(tx) && |tx| == |ty|
    requires forall i | 0 <= i < |tx| :: tx[i].now == ty[i].now && RequestsNoLess(tx[i].input, ty[i].input)
    ensures Covers(Run(DEFAULT_GOVERNOR, ty), Run(DEFAULT_GOVERNOR, tx))
    ensures tx != [] ==> StartedBy(Run(DEFAULT_GOVERNOR, tx).hard, tx[|tx| - 1].now)
                         && StartedBy(Run(DEFAULT_GOVERNOR, tx).adaptive, tx[|tx| - 1].now)
  {
    if tx != [] {
      var n := |tx| - 1;
      RunCovers(tx[..n], ty[..n]);
      var x, y := Run(DEFAULT_GOVERNOR, tx[..n]), Run(DEFAULT_GOVERNOR, ty[..n]);
      CoversStep(x, y, tx[n], ty[n]);
      StartedAfter(x, tx[n]);
    }
  }

  /** Worse conditions never relax the budget, then or later, although they may move a request
      from one lane to the other and the lanes recover at different speeds. */
  lemma WorseNeverRelaxesTheBudget(tx: seq<Sample>, ty: seq<Sample>)
    requires InOrder(tx) && |tx| == |ty|
    requires forall i | 0 <= i < |tx| :: tx[i].now == ty[i].now && NoBetter(tx[i].input, ty[i].input)
    ensures Run(DEFAULT_GOVERNOR, tx).Level().Rank() <= Run(DEFAULT_GOVERNOR, ty).Level().Rank()
    ensures Run(DEFAULT_GOVERNOR, tx).hard.level.Rank() <= Run(DEFAULT_GOVERNOR, ty).hard.level.Rank()
  {
    forall i | 0 <= i < |tx| ensures RequestsNoLess(tx[i].input, ty[i].input) {
      NoBetterRequestsNoLess(tx[i].input, ty[i].input);
    }
    RunCovers(tx, ty);
  }

  /** `y` is `x` with some stutter flags raised. */
  predicate RaisesFlags(x: OverheadInput, y: OverheadInput) {
    NoBetter(x, y) && AgreeOnFixedSignals(x, y)
  }

  /** Raising stutter flags anywhere in a run never lowers the budget, then or later, and
      leaves the hard hold exactly as it was. */
  lemma FlagsNeverLowerTheBudget(tx: seq<Sample>, ty: seq<Sample>)
    requires InOrder(tx) && |tx| == |ty|
    requires forall i | 0 <= i < |tx| :: tx[i].now == ty[i].now && RaisesFlags(tx[i].input, ty[i].input)
    ensures Run(DEFAULT_GOVERNOR, tx).hard == Run(DEFAULT_GOVERNOR, ty).hard
    ensures Run(DEFAULT_GOVERNOR, tx).Level().Rank() <= Run(DEFAULT_GOVERNOR, ty).Level().Rank()
  {
    NonInterference(DEFAULT_GOVERNOR, tx, ty);
    WorseNeverRelaxesTheBudget(tx, ty);
  }

  // ------------------------------------------------------------------- recovery

  /** None of the last `n` requests exceeds `m`. */
  predicate LastWithin(trace: seq<Sample>, n: nat, m: Level) {
    n <= |trace| && forall i | |trace| - n <= i < |trace| :: RequestedLevel(trace[i].input).Rank() <= m.Rank()
  }

  lemma RequestsWithin(trace: seq<Sample>, n: nat, m: Level)
    requires LastWithin(trace, n, m)
    ensures forall i | |trace| - n <= i < |trace| ::
              FixedRequests(trace)[i].level.Rank() <= m.Rank() && AdaptiveRequests(trace)[i].level.Rank() <= m.Rank()
  {
    forall i | |trace| - n <= i < |trace|
      ensures FixedRequests(trace)[i].level.Rank() <= m.Rank() && AdaptiveRequests(trace)[i].level.Rank() <= m.Rank()
    {
      SplitCoversRequest(trace[i].input);
    }
  }

  lemma AdaptiveLaneRecovers(g: Governor, trace: seq<Sample>, m: Level)
    requires LastWithin(trace, 30, m)
    ensures Run(g, trace).adaptive.level.Rank() <= m.Rank()
  {
    LanesAreIndependent(g, trace);
    RequestsWithin(trace, 30, m);
    RecoveryBound(g.adaptive, AdaptiveRequests(trace), m, ADAPTIVE);
  }

  lemma HardLaneRecovers(g: Governor, trace: seq<Sample>, m: Level)
    requires LastWithin(trace, 240, m)
    ensures Run(g, trace).hard.level.Rank() <= m.Rank()
  {
    LanesAreIndependent(g, trace);
    RequestsWithin(trace, 240, m);
    RecoveryBound(g.hard, FixedRequests(trace), m, HARD);
  }

  /** The budget never outlives its cause by more than 240 observations, whatever the state it
      started from; and once no request exceeds `m`, the adaptive lane needs only 30. */
  lemma GovernorRecovers(g: Governor, trace: seq<Sample>, m: Level)
    ensures LastWithin(trace, 240, m) ==> Run(g, trace).Level().Rank() <= m.Rank()
    ensures LastWithin(trace, 30, m) ==> Run(g, trace).adaptive.level.Rank() <= m.Rank()
  {
    if LastWithin(trace, 30, m) {
      AdaptiveLaneRecovers(g, trace, m);
    }
    if LastWithin(trace, 240, m) {
      assert LastWithin(trace, 30, m);
      HardLaneRecovers(g, trace, m);
    }
  }

  predicate SamplesWithin(trace: seq<Sample>, gap: nat) {
    forall i | 0 <= i < |trace| - 1 :: trace[i + 1].now <= trace[i].now + gap
  }

  /** One lane in elapsed time, given its half of the requests. */
  lemma LaneRecoversInTime(h: Hold, trace: seq<Sample>, requests: seq<Request>, m: Level, p: Policy, gap: nat)
    requires trace != [] && InOrder(trace) && SamplesWithin(trace, gap) && StartedBy(h, trace[0].now)
    requires |requests| == |trace| && forall i | 0 <= i < |trace| :: requests[i].now == trace[i].now
    requires 0 < p.longest && forall i | 0 <= i < |requests| :: requests[i].level.Rank() <= m.Rank()
    requires 2 * p.longest + 2 * gap <= trace[|trace| - 1].now - trace[0].now
    ensures Replay(h, requests, p).level.Rank() <= m.Rank()
  {
    ElapsedRecoveryBound(h, requests, m, p, gap);
  }

  /** In elapsed time: from any state, with samples at most `gap` milliseconds apart and no request
      above `m`, the adaptive lane is down after a minute and two gaps, and so is the whole budget
      after eight minutes and two gaps. */
  lemma GovernorRecoversInTime(g: Governor, trace: seq<Sample>, m: Level, gap: nat)
    requires trace != [] && InOrder(trace) && SamplesWithin(trace, gap)
    requires StartedBy(g.hard, trace[0].now) && StartedBy(g.adaptive, trace[0].now)
    requires LastWithin(trace, |trace|, m)
    ensures 60_000 + 2 * gap <= trace[|trace| - 1].now - trace[0].now
            ==> Run(g, trace).adaptive.level.Rank() <= m.Rank()
    ensures 480_000 + 2 * gap <= trace[|trace| - 1].now - trace[0].now
            ==> Run(g, trace).Level().Rank() <= m.Rank()
  {
    var elapsed := trace[|trace| - 1].now - trace[0].now;
    LanesAreIndependent(g, trace);
    RequestsWithin(trace, |trace|, m);
    if 60_000 + 2 * gap <= elapsed {
      LaneRecoversInTime(g.adaptive, trace, AdaptiveRequests(trace), m, ADAPTIVE, gap);
    }
    if 480_000 + 2 * gap <= elapsed {
      LaneRecoversInTime(g.hard, trace, FixedRequests(trace), m, HARD, gap);
    }
  }
}
