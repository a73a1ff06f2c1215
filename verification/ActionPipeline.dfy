/** The filter stage between proposal and execution: mode filter, causal upgrade, and the
    de-duplication of throttles against the previous cycle. */
module ActionPipeline {
  import opened Wrappers
  import opened RootActions
  import opened Sequences

  datatype OperationMode = Full | Conservative | Observe | Emergency

  predicate Admits(mode: OperationMode, a: RootAction) {
    match a
    case FreezeProcess(_, _, _, _, _, _) => mode == Full
    case ThrottleProcess(_, _, _, _, _, _, _) => mode == Full
    case UnfreezeProcess(_, _, _, _, _, _) => mode != Observe
    case BoostProcess(_, _, _, _, _, _) => mode == Full || mode == Conservative
    case SetThreadQoS(_, _, _, _, _, _, _, _, _) => mode == Full || mode == Conservative
    case SetSysctl(_) => mode == Full
    case SetMemorystatus(_, _, _, _) => mode == Full
    case ToggleSpotlight(_, _, _) => mode == Full
    case QuarantineDaemon(_, _, _, _) => mode == Full
  }

  /** What each mode admits: everything, nothing, or only the actions that stop no process. */
  lemma AdmitsMeaning(mode: OperationMode, a: RootAction)
    ensures mode == Full ==> Admits(mode, a)
    ensures mode == Observe ==> !Admits(mode, a)
    ensures mode == Emergency ==> (Admits(mode, a) <==> a.UnfreezeProcess?)
    ensures mode == Conservative ==>
              (Admits(mode, a) <==> a.UnfreezeProcess? || a.BoostProcess? || a.SetThreadQoS?)
  {
  }

  datatype SwapRisk = Safe | Building | Critical | Overflow

  /** The two flags of the previous cycle's cognitive decision that gate this cycle. */
  datatype CognitiveGate = CognitiveGate(observeOnly: bool, blockAggressive: bool)

  /** What decides the mode of a cycle; `degraded` is the mode of the degradation controller. */
  datatype Conditions = Conditions(degraded: OperationMode, cognitive: Option<CognitiveGate>, swapRisk: SwapRisk,
                                   memoryPressure: real)

  predicate PhysicallyCritical(g: Conditions) {
    g.swapRisk == Critical || g.swapRisk == Overflow || g.memoryPressure >= 0.80
  }

  function GatedMode(g: Conditions): OperationMode {
    if g.cognitive.Some? && g.cognitive.value.observeOnly && g.degraded == Full then
      if PhysicallyCritical(g) then Conservative else Observe
    else if g.cognitive.Some? && g.cognitive.value.blockAggressive && g.degraded == Full then Conservative
    else g.degraded
  }

  /** The mode of a cycle, gate by gate. */
  lemma GatedModeMeaning(g: Conditions)
    ensures var observeOnly := g.cognitive.Some? && g.cognitive.value.observeOnly;
            var blockAggressive := g.cognitive.Some? && g.cognitive.value.blockAggressive;
            var critical := g.swapRisk.Critical? || g.swapRisk.Overflow? || 0.80 <= g.memoryPressure;
            && (GatedMode(g) == Emergency <==> g.degraded == Emergency)
            && (GatedMode(g) == Full <==> g.degraded == Full && !observeOnly && !blockAggressive)
            && (GatedMode(g) == Observe <==>
                  g.degraded == Observe || (g.degraded == Full && observeOnly && !critical))
  {
  }

  /** The cognitive gates only ever take actions away, and only from the full mode. */
  lemma GatesOnlyRestrict(g: Conditions, a: RootAction)
    ensures Admits(GatedMode(g), a) ==> Admits(g.degraded, a)
    ensures g.degraded != Full ==> GatedMode(g) == g.degraded
  {
  }

  /** Of a physically critical machine in full mode they never take all actions away, but the
      override does not bring freezes and throttles back: those are admitted if and only if neither
      flag is up, whatever the pressure. */
  lemma OverrideKeepsOnlySafeActions(g: Conditions, a: RootAction)
    requires g.degraded == Full
    ensures PhysicallyCritical(g) && Admits(Conservative, a) ==> Admits(GatedMode(g), a)
    ensures a.FreezeProcess? || a.ThrottleProcess? ==>
              (Admits(GatedMode(g), a) <==>
                 g.cognitive.Some? ==> !g.cognitive.value.observeOnly && !g.cognitive.value.blockAggressive)
  {
  }

  datatype BlockReason = ModeEmergency | ModeObserve | ModeConservative | PreviousCycleThrottle

  datatype Blocked = Blocked(action: RootAction, reason: BlockReason)

  function ModeReason(mode: OperationMode): BlockReason
    requires mode != Full
  {
    match mode
    case Emergency => ModeEmergency
    case Observe => ModeObserve
    case Conservative => ModeConservative
  }

  /** A freeze of a process whose load is CPU becomes an aggressive throttle of the same process. */
  function Upgraded(names: set<string>, a: RootAction): RootAction {
    if a.FreezeProcess? && a.name in names then
      ThrottleProcess(a.pid, a.name, true, a.reason + " [causal:qos]", a.decisionReason, a.startSec, a.startUsec)
    else a
  }

  function UpgradedAll(names: set<string>, actions: seq<RootAction>): (r: seq<RootAction>)
    ensures |r| == |actions| && forall i | 0 <= i < |r| :: r[i] == Upgraded(names, actions[i])
  {
    seq(|actions|, i requires 0 <= i < |actions| => Upgraded(names, actions[i]))
  }

  predicate Upgrades(names: set<string>, a: RootAction) {
    a.FreezeProcess? && a.name in names
  }

  predicate Repeats(previous: set<nat>, a: RootAction) {
    a.ThrottleProcess? && a.pid in previous
  }

  function ThrottledPids(actions: seq<RootAction>): set<nat> {
    set i | 0 <= i < |actions| && actions[i].ThrottleProcess? :: actions[i].pid
  }

  function WithReason(actions: seq<RootAction>, reason: BlockReason): (b: seq<Blocked>)
    ensures |b| == |actions| && forall i | 0 <= i < |b| :: b[i] == Blocked(actions[i], reason)
  {
    seq(|actions|, i requires 0 <= i < |actions| => Blocked(actions[i], reason))
  }

  function AdmittedBy(mode: OperationMode): RootAction -> bool {
    (a: RootAction) => Admits(mode, a)
  }

  function RejectedBy(mode: OperationMode): RootAction -> bool {
    (a: RootAction) => !Admits(mode, a)
  }

  function UpgradableBy(names: set<string>): RootAction -> bool {
    (a: RootAction) => Upgrades(names, a)
  }

  function RepeatOf(previous: set<nat>): RootAction -> bool {
    (a: RootAction) => Repeats(previous, a)
  }

  function NewSince(previous: set<nat>): RootAction -> bool {
    (a: RootAction) => !Repeats(previous, a)
  }

  function ThrottleOf(pid: nat): RootAction -> bool {
    (a: RootAction) => a.ThrottleProcess? && a.pid == pid
  }

  /** What one cycle is given: the proposals, the effective mode and the CPU-dominant names. */
  datatype Cycle = Cycle(actions: seq<RootAction>, mode: OperationMode, names: set<string>)

  function Admitted(c: Cycle): seq<RootAction> {
    Filter(AdmittedBy(c.mode), c.actions)
  }

  function Rejected(c: Cycle): seq<RootAction> {
    Filter(RejectedBy(c.mode), c.actions)
  }

  /** What reaches the de-duplication. */
  function Reaching(c: Cycle): seq<RootAction> {
    UpgradedAll(c.names, Admitted(c))
  }

  function Passed(previous: set<nat>, c: Cycle): seq<RootAction> {
    Filter(NewSince(previous), Reaching(c))
  }

  function Dropped(previous: set<nat>, c: Cycle): seq<RootAction> {
    Filter(RepeatOf(previous), Reaching(c))
  }

  method FilterActionsForMode(actions: seq<RootAction>, mode: OperationMode)
    returns (allowed: seq<RootAction>, blocked: seq<Blocked>)
    ensures allowed == Filter(AdmittedBy(mode), actions)
    ensures mode == Full ==> blocked == []
    ensures mode != Full ==> blocked == WithReason(Filter(RejectedBy(mode), actions), ModeReason(mode))
  {
    if mode == Full {
      FullAdmitsAll(actions);
      return actions, [];
    }
    var reason := ModeReason(mode);
    allowed, blocked := [], [];
    for i := 0 to |actions|
      invariant allowed == Filter(AdmittedBy(mode), actions[..i])
      invariant blocked == WithReason(Filter(RejectedBy(mode), actions[..i]), reason)
    {
      assert actions[..i + 1][..i] == actions[..i];
      if Admits(mode, actions[i]) {
        allowed := allowed + [actions[i]];
      } else {
        blocked := blocked + [Blocked(actions[i], reason)];
      }
    }
    assert actions[..|actions|] == actions;
  }

  lemma {:induction false} FullAdmitsAll(actions: seq<RootAction>)
    ensures Filter(AdmittedBy(Full), actions) == actions
    ensures Filter(RejectedBy(Full), actions) == []
  {
    if actions != [] {
      FullAdmitsAll(actions[..|actions| - 1]);
      assert Admits(Full, actions[|actions| - 1]);
    }
  }

  method UpgradeCausalQosActions(actions: seq<RootAction>, names: set<string>)
    returns (upgraded: seq<RootAction>, upgrades: nat)
    ensures upgraded == UpgradedAll(names, actions)
    ensures upgrades == |Filter(UpgradableBy(names), actions)|
  {
    if names == {} {
      NothingUpgrades(actions);
      return actions, 0;
    }
    upgraded, upgrades := [], 0;
    for i := 0 to |actions|
      invariant upgraded == UpgradedAll(names, actions[..i])
      invariant upgrades == |Filter(UpgradableBy(names), actions[..i])|
    {
      assert actions[..i + 1][..i] == actions[..i];
      if Upgrades(names, actions[i]) {
        upgrades := upgrades + 1;
      }
      upgraded := upgraded + [Upgraded(names, actions[i])];
    }
    assert actions[..|actions|] == actions;
  }

  lemma {:induction false} NothingUpgrades(actions: seq<RootAction>)
    ensures UpgradedAll({}, actions) == actions
    ensures Filter(UpgradableBy({}), actions) == []
  {
    if actions != [] {
      NothingUpgrades(actions[..|actions| - 1]);
    }
  }

  method DedupThrottleActions(actions: seq<RootAction>, previous: set<nat>)
    returns (allowed: seq<RootAction>, thisCycle: set<nat>, blocked: seq<RootAction>)
    ensures allowed == Filter(NewSince(previous), actions)
    ensures blocked == Filter(RepeatOf(previous), actions)
    ensures thisCycle == ThrottledPids(actions)
  {
    allowed, thisCycle, blocked := [], {}, [];
    for i := 0 to |actions|
      invariant allowed == Filter(NewSince(previous), actions[..i])
      invariant blocked == Filter(RepeatOf(previous), actions[..i])
      invariant thisCycle == ThrottledPids(actions[..i])
    {
      assert actions[..i + 1][..i] == actions[..i];
      ThrottledGrow(actions, i);
      if actions[i].ThrottleProcess? {
        thisCycle := thisCycle + {actions[i].pid as nat};
      }
      if Repeats(previous, actions[i]) {
        blocked := blocked + [actions[i]];
      } else {
        allowed := allowed + [actions[i]];
      }
    }
    assert actions[..|actions|] == actions;
  }

  lemma ThrottledGrow(actions: seq<RootAction>, i: nat)
    requires i < |actions|
    ensures ThrottledPids(actions[..i + 1])
         == ThrottledPids(actions[..i]) + if actions[i].ThrottleProcess? then {actions[i].pid as nat} else {}
  {
    var before, after := actions[..i], actions[..i + 1];
    assert forall k | 0 <= k < i :: after[k] == before[k];
    assert after[i] == actions[i];
  }

  datatype FilterOutcome = FilterOutcome(filteredActions: seq<RootAction>, opMode: OperationMode,
                                         causalQosUpgrades: nat, blockedActions: seq<Blocked>)

  function BlockedByMode(c: Cycle): seq<Blocked> {
    if c.mode == Full then [] else WithReason(Rejected(c), ModeReason(c.mode))
  }

  class FilterPipeline {
    /** The processes whose throttles reached the de-duplication in the previous cycle. */
    var prevThrottled: Option<set<nat>>

    function Previous(): set<nat>
      reads this
    {
      if prevThrottled.Some? then prevThrottled.value else {}
    }

    constructor ()
      ensures Previous() == {}
    {
      prevThrottled := None;
    }

    method RunFilterPipeline(proposals: seq<RootAction>, g: Conditions, names: set<string>)
      returns (outcome: FilterOutcome)
      modifies this
      ensures var c := Cycle(proposals, GatedMode(g), names);
              && outcome.filteredActions == Passed(old(Previous()), c)
              && outcome.opMode == c.mode
              && outcome.causalQosUpgrades == |Filter(UpgradableBy(names), Admitted(c))|
              && outcome.blockedActions
                 == BlockedByMode(c) + WithReason(Dropped(old(Previous()), c), PreviousCycleThrottle)
              && Previous() == ThrottledPids(Reaching(c))
    {
      var mode := g.degraded;
      if g.cognitive.Some? && g.cognitive.value.observeOnly && mode == Full {
        mode := if PhysicallyCritical(g) then Conservative else Observe;
      } else if g.cognitive.Some? && g.cognitive.value.blockAggressive && mode == Full {
        mode := Conservative;
      }
      var admitted, blocked := FilterActionsForMode(proposals, mode);
      var upgraded, upgrades := UpgradeCausalQosActions(admitted, names);
      var deduped, thisCycle, dropped := DedupThrottleActions(upgraded, Previous());
      prevThrottled := Some(thisCycle);
      outcome := FilterOutcome(deduped, mode, upgrades, blocked + WithReason(dropped, PreviousCycleThrottle));
    }
  }

  // ---------------------------------------------------------------- conservation

  /** Each proposal as it must come out: unchanged, unless it is an admitted freeze to be upgraded. */
  function Expected(mode: OperationMode, names: set<string>, actions: seq<RootAction>): (r: seq<RootAction>)
    ensures |r| == |actions|
    ensures forall i | 0 <= i < |r| ::
              r[i] == if Admits(mode, actions[i]) then Upgraded(names, actions[i]) else actions[i]
  {
    seq(|actions|, i requires 0 <= i < |actions| =>
      if Admits(mode, actions[i]) then Upgraded(names, actions[i]) else actions[i])
  }

  lemma UpgradedAppend(names: set<string>, s: seq<RootAction>, a: RootAction)
    ensures UpgradedAll(names, s + [a]) == UpgradedAll(names, s) + [Upgraded(names, a)]
  {
  }

  /** What the mode filter and the upgrade let through, and what the filter rejects. */
  function SortedOut(mode: OperationMode, names: set<string>, s: seq<RootAction>): multiset<RootAction> {
    multiset(UpgradedAll(names, Filter(AdmittedBy(mode), s))) + multiset(Filter(RejectedBy(mode), s))
  }

  lemma SortedOutAppend(mode: OperationMode, names: set<string>, s: seq<RootAction>, a: RootAction)
    ensures SortedOut(mode, names, s + [a])
         == SortedOut(mode, names, s) + multiset{if Admits(mode, a) then Upgraded(names, a) else a}
  {
    var kept, left := Filter(AdmittedBy(mode), s), Filter(RejectedBy(mode), s);
    FilterAppend(AdmittedBy(mode), s, a);
    FilterAppend(RejectedBy(mode), s, a);
    if Admits(mode, a) {
      UpgradedAppend(names, kept, a);
      AppendCounts(UpgradedAll(names, kept), Upgraded(names, a));
    } else {
      AppendCounts(left, a);
    }
  }

  lemma SortedOutLast(mode: OperationMode, names: set<string>, s: seq<RootAction>)
    requires s != []
    ensures var early, a := s[..|s| - 1], s[|s| - 1];
            SortedOut(mode, names, s)
            == SortedOut(mode, names, early) + multiset{if Admits(mode, a) then Upgraded(names, a) else a}
  {
    SortedOutAppend(mode, names, s[..|s| - 1], s[|s| - 1]);
    assert s[..|s| - 1] + [s[|s| - 1]] == s;
  }

  lemma ExpectedLast(mode: OperationMode, names: set<string>, s: seq<RootAction>)
    requires s != []
    ensures var early, a := s[..|s| - 1], s[|s| - 1];
            multiset(Expected(mode, names, s))
            == multiset(Expected(mode, names, early)) + multiset{if Admits(mode, a) then Upgraded(names, a) else a}
  {
    var early, a := s[..|s| - 1], s[|s| - 1];
    assert Expected(mode, names, s)
        == Expected(mode, names, early) + [if Admits(mode, a) then Upgraded(names, a) else a];
  }

  lemma {:induction false} ModeSplits(mode: OperationMode, names: set<string>, s: seq<RootAction>)
    ensures SortedOut(mode, names, s) == multiset(Expected(mode, names, s))
  {
    if s != [] {
      ModeSplits(mode, names, s[..|s| - 1]);
      SortedOutLast(mode, names, s);
      ExpectedLast(mode, names, s);
    }
  }

  function BlockedActions(b: seq<Blocked>): (r: seq<RootAction>)
    ensures |r| == |b| && forall i | 0 <= i < |b| :: r[i] == b[i].action
  {
    seq(|b|, i requires 0 <= i < |b| => b[i].action)
  }

  lemma BlockedConcat(a: seq<Blocked>, b: seq<Blocked>)
    ensures BlockedActions(a + b) == BlockedActions(a) + BlockedActions(b)
  {
  }

  lemma ReasonsForgotten(s: seq<RootAction>, reason: BlockReason)
    ensures BlockedActions(WithReason(s, reason)) == s
  {
  }

  lemma BlockedAre(previous: set<nat>, c: Cycle)
    ensures BlockedActions(BlockedByMode(c) + WithReason(Dropped(previous, c), PreviousCycleThrottle))
         == Rejected(c) + Dropped(previous, c)
  {
    BlockedConcat(BlockedByMode(c), WithReason(Dropped(previous, c), PreviousCycleThrottle));
    ReasonsForgotten(Dropped(previous, c), PreviousCycleThrottle);
    if c.mode == Full {
      FullAdmitsAll(c.actions);
      assert BlockedActions([]) == [];
    } else {
      ReasonsForgotten(Rejected(c), ModeReason(c.mode));
    }
  }

  /** How a proposal comes out: an admitted freeze of a listed process as an aggressive throttle of the
      same process, and everything else as it is. */
  predicate ComesOutAs(c: Cycle, a: RootAction, b: RootAction) {
    if c.mode == Full && a.FreezeProcess? && a.name in c.names then
      && b.ThrottleProcess? && b.aggressive
      && b.pid == a.pid && b.name == a.name && b.startSec == a.startSec && b.startUsec == a.startUsec
      && b.decisionReason == a.decisionReason && b.reason == a.reason + " [causal:qos]"
    else b == a
  }

  lemma UpgradedComesOut(c: Cycle, a: RootAction)
    ensures ComesOutAs(c, a, if Admits(c.mode, a) then Upgraded(c.names, a) else a)
  {
  }

  /** Every proposal comes out exactly once, filtered or blocked, and nothing else does. */
  lemma ActionsAreConserved(previous: set<nat>, c: Cycle) returns (out: seq<RootAction>)
    ensures |out| == |c.actions| && forall i | 0 <= i < |out| :: ComesOutAs(c, c.actions[i], out[i])
    ensures multiset(Passed(previous, c))
            + multiset(BlockedActions(BlockedByMode(c) + WithReason(Dropped(previous, c), PreviousCycleThrottle)))
         == multiset(out)
  {
    BlockedAre(previous, c);
    FilterSplits(NewSince(previous), RepeatOf(previous), Reaching(c));
    ModeSplits(c.mode, c.names, c.actions);
    out := Expected(c.mode, c.names, c.actions);
    forall i | 0 <= i < |out| ensures ComesOutAs(c, c.actions[i], out[i]) {
      UpgradedComesOut(c, c.actions[i]);
    }
  }

  // ------------------------------------------------------ proposals at the second stage

  /** The proposals that throttle `pid` in this cycle, natively or by the upgrade. */
  predicate Throttles(c: Cycle, a: RootAction, pid: nat) {
    && c.mode == Full
    && (|| (a.ThrottleProcess? && a.pid == pid)
        || (a.FreezeProcess? && a.pid == pid && a.name in c.names))
  }

  function ThrottlesBy(c: Cycle, pid: nat): RootAction -> bool {
    (a: RootAction) => Throttles(c, a, pid)
  }

  function NoThrottle(): RootAction -> bool {
    (a: RootAction) => !a.ThrottleProcess?
  }

  /** The proposals that are admitted and throttle nothing. */
  function Harmless(c: Cycle): RootAction -> bool {
    (a: RootAction) => Admits(c.mode, a) && !a.ThrottleProcess? && !(a.FreezeProcess? && a.name in c.names)
  }

  /** Selecting among what comes out is selecting among the proposals. */
  lemma {:induction false} SelectedReach(c: Cycle, s: seq<RootAction>, p: RootAction -> bool, q: RootAction -> bool)
    requires forall a :: q(a) == (Admits(c.mode, a) && p(Upgraded(c.names, a)))
    ensures Filter(p, UpgradedAll(c.names, Filter(AdmittedBy(c.mode), s))) == UpgradedAll(c.names, Filter(q, s))
  {
    if s != [] {
      var early, a := s[..|s| - 1], s[|s| - 1];
      var kept := Filter(AdmittedBy(c.mode), early);
      SelectedReach(c, early, p, q);
      assert q(a) == (Admits(c.mode, a) && p(Upgraded(c.names, a)));
      assert kept + [] == kept && Filter(q, early) + [] == Filter(q, early);
      if Admits(c.mode, a) {
        UpgradedAppend(c.names, kept, a);
        FilterAppend(p, UpgradedAll(c.names, kept), Upgraded(c.names, a));
      }
      UpgradedAppend(c.names, Filter(q, early), a);
    }
  }

  lemma ThrottlesReach(c: Cycle, pid: nat)
    ensures Filter(ThrottleOf(pid), Reaching(c)) == UpgradedAll(c.names, Filter(ThrottlesBy(c, pid), c.actions))
  {
    SelectedReach(c, c.actions, ThrottleOf(pid), ThrottlesBy(c, pid));
  }

  lemma {:induction false} NothingElseUpgrades(c: Cycle, s: seq<RootAction>)
    ensures UpgradedAll(c.names, Filter(Harmless(c), s)) == Filter(Harmless(c), s)
  {
    if s != [] {
      NothingElseUpgrades(c, s[..|s| - 1]);
      UpgradedAppend(c.names, Filter(Harmless(c), s[..|s| - 1]), s[|s| - 1]);
    }
  }

  lemma {:induction false} DedupKeepsOthers(previous: set<nat>, s: seq<RootAction>)
    ensures Filter(NoThrottle(), Filter(NewSince(previous), s)) == Filter(NoThrottle(), s)
  {
    if s != [] {
      var n := |s| - 1;
      DedupKeepsOthers(previous, s[..n]);
      var f := Filter(NewSince(previous), s[..n]);
      FilterAppend(NoThrottle(), f, s[n]);
      assert f + [] == f;
    }
  }

  /** Admitted proposals that throttle nothing pass unchanged and in order, whatever was remembered. */
  lemma OthersPass(previous: set<nat>, c: Cycle)
    ensures Filter(NoThrottle(), Passed(previous, c)) == Filter(Harmless(c), c.actions)
  {
    DedupKeepsOthers(previous, Reaching(c));
    SelectedReach(c, c.actions, NoThrottle(), Harmless(c));
    NothingElseUpgrades(c, c.actions);
  }

  function ListedFreeze(c: Cycle): RootAction -> bool {
    (a: RootAction) => c.mode == Full && a.FreezeProcess? && a.name in c.names
  }

  lemma {:induction false} CountUpgrades(c: Cycle, s: seq<RootAction>)
    ensures Filter(UpgradableBy(c.names), Filter(AdmittedBy(c.mode), s))
         == Filter(ListedFreeze(c), s)
  {
    if s != [] {
      var n := |s| - 1;
      CountUpgrades(c, s[..n]);
      var f := Filter(AdmittedBy(c.mode), s[..n]);
      FilterAppend(UpgradableBy(c.names), f, s[n]);
      assert f + [] == f;
    }
  }

  /** The count of upgrades is that of the listed freezes proposed in full mode. */
  lemma UpgradesAreCounted(c: Cycle)
    ensures |Filter(UpgradableBy(c.names), Admitted(c))|
         == |Filter(ListedFreeze(c), c.actions)|
  {
    CountUpgrades(c, c.actions);
  }

  /** What the mode blocks is what it does not admit, with the reason of the mode. */
  lemma ModeBlocks(c: Cycle)
    ensures BlockedActions(BlockedByMode(c)) == Filter(RejectedBy(c.mode), c.actions)
    ensures forall a | a in BlockedActions(BlockedByMode(c)) :: !Admits(c.mode, a)
    ensures forall i | 0 <= i < |BlockedByMode(c)| ::
              BlockedByMode(c)[i].reason == match c.mode
                                            case Observe => ModeObserve
                                            case Conservative => ModeConservative
                                            case Emergency => ModeEmergency
                                            case Full => PreviousCycleThrottle
  {
    if c.mode == Full {
      FullAdmitsAll(c.actions);
    } else {
      ReasonsForgotten(Rejected(c), ModeReason(c.mode));
      FilterMembers(RejectedBy(c.mode), c.actions);
      forall a | a in Rejected(c) ensures !Admits(c.mode, a) {
        assert RejectedBy(c.mode)(a);
      }
    }
  }

  // ------------------------------------------------------------------ whole runs

  /** The previous-cycle set after a run of cycles. */
  function PreviousAfter(history: seq<Cycle>): set<nat> {
    if history == [] then {} else ThrottledPids(Reaching(history[|history| - 1]))
  }

  /** Some proposal of the cycle throttles `pid`. */
  predicate ReachesDedup(c: Cycle, pid: nat) {
    exists i :: 0 <= i < |c.actions| && Throttles(c, c.actions[i], pid)
  }

  lemma {:induction false} PassedThrottles(previous: set<nat>, s: seq<RootAction>, pid: nat)
    ensures Filter(ThrottleOf(pid), Filter(NewSince(previous), s))
         == if pid in previous then [] else Filter(ThrottleOf(pid), s)
  {
    if s != [] {
      var n := |s| - 1;
      PassedThrottles(previous, s[..n], pid);
      var f := Filter(NewSince(previous), s[..n]);
      FilterAppend(ThrottleOf(pid), f, s[n]);
      assert f + [] == f;
    }
  }

  lemma ReachesMeansProposed(c: Cycle, pid: nat)
    ensures ReachesDedup(c, pid) <==> Filter(ThrottlesBy(c, pid), c.actions) != []
  {
    var t := Filter(ThrottlesBy(c, pid), c.actions);
    FilterMembers(ThrottlesBy(c, pid), c.actions);
    if t != [] {
      assert t[0] in c.actions && ThrottlesBy(c, pid)(t[0]);
    }
    if i :| 0 <= i < |c.actions| && Throttles(c, c.actions[i], pid) {
      assert ThrottlesBy(c, pid)(c.actions[i]) && c.actions[i] in t;
    }
  }

  lemma ThrottledArePids(s: seq<RootAction>, pid: nat)
    ensures pid in ThrottledPids(s) <==> Filter(ThrottleOf(pid), s) != []
  {
    var t := Filter(ThrottleOf(pid), s);
    FilterMembers(ThrottleOf(pid), s);
    if t != [] {
      assert t[0] in s && ThrottleOf(pid)(t[0]);
    }
    if i :| 0 <= i < |s| && s[i].ThrottleProcess? && s[i].pid == pid {
      assert ThrottleOf(pid)(s[i]) && s[i] in t;
    }
  }

  /** What a run remembers is exactly the processes that its last cycle's proposals throttle. */
  lemma RememberedExactly(history: seq<Cycle>, pid: nat)
    ensures pid in PreviousAfter(history) <==> history != [] && ReachesDedup(history[|history| - 1], pid)
  {
    if history != [] {
      var c := history[|history| - 1];
      ThrottledArePids(Reaching(c), pid);
      ThrottlesReach(c, pid);
      ReachesMeansProposed(c, pid);
    }
  }

  /** Over any run of cycles, the throttles of a process that pass in a cycle are all of those proposed,
      as they come out, if none was proposed in the cycle before, and otherwise none: of consecutive
      cycles proposing the same throttle only the first lets it through. */
  lemma OnlyTheFirstCyclePasses(history: seq<Cycle>, k: nat, pid: nat)
    requires k < |history|
    ensures var c := history[k];
            var passed := Filter(ThrottleOf(pid), Passed(PreviousAfter(history[..k]), c));
            var proposed := Filter(ThrottlesBy(c, pid), c.actions);
            if k > 0 && ReachesDedup(history[k - 1], pid) then passed == []
            else |passed| == |proposed| && forall i | 0 <= i < |passed| :: ComesOutAs(c, proposed[i], passed[i])
    ensures Filter(ThrottlesBy(history[k], pid), history[k].actions) != [] <==> ReachesDedup(history[k], pid)
  {
    var c := history[k];
    PassedThrottles(PreviousAfter(history[..k]), Reaching(c), pid);
    ReachesMeansProposed(c, pid);
    RememberedExactly(history[..k], pid);
    ThrottlesReach(c, pid);
    var proposed := Filter(ThrottlesBy(c, pid), c.actions);
    FilterMembers(ThrottlesBy(c, pid), c.actions);
    forall i | 0 <= i < |proposed| ensures ComesOutAs(c, proposed[i], Upgraded(c.names, proposed[i])) {
      assert proposed[i] in proposed && ThrottlesBy(c, pid)(proposed[i]);
      UpgradedComesOut(c, proposed[i]);
    }
  }

  /** A cycle in any reduced mode lets no throttle reach the de-duplication, so it forgets: the
      cycle after it passes every throttle that it proposes. */
  lemma ReducedModeForgets(history: seq<Cycle>)
    requires history != [] && history[|history| - 1].mode != Full
    ensures PreviousAfter(history) == {}
  {
    forall pid ensures pid !in PreviousAfter(history) {
      RememberedExactly(history, pid);
    }
  }
}
