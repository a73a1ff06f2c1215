/** The freeze-confirmation gate: a counter map carried from cycle to cycle. */
module FreezeGates {
  import opened Wrappers
  import opened RootActions
  import opened Sequences

  datatype Fluidity = Fluidity(launchActive: bool, predicted3s: real, velocity: real)

  predicate Preemptive(f: Fluidity) {
    !f.launchActive && f.predicted3s < 0.60 && f.velocity < -0.05
  }

  function Required(f: Fluidity): nat {
    if Preemptive(f) then 1 else 2
  }

  /** The confirmation counters, by process. */
  type Candidates = map<nat, nat>

  function ProposedPids(actions: seq<RootAction>): set<nat> {
    set i | 0 <= i < |actions| && actions[i].FreezeProcess? :: actions[i].pid
  }

  /** The counter after one more proposal in a cycle without a launch. */
  function Counted(c: Candidates, f: Fluidity, pid: nat): nat {
    Min((if pid in c then c[pid] else 0) + 1, Required(f) + 1)
  }

  predicate Confirms(c: Candidates, f: Fluidity, pid: nat) {
    !f.launchActive && Required(f) <= Counted(c, f, pid)
  }

  /** What leaves the gate: of the freezes, the first proposal for each confirmed process. */
  function Confirmed(c: Candidates, f: Fluidity, actions: seq<RootAction>): seq<RootAction> {
    if actions == [] then []
    else
      var earlier, a := actions[..|actions| - 1], actions[|actions| - 1];
      Confirmed(c, f, earlier)
      + if a.FreezeProcess? && (a.pid in ProposedPids(earlier) || !Confirms(c, f, a.pid)) then [] else [a]
  }

  function NextCandidates(c: Candidates, f: Fluidity, actions: seq<RootAction>): Candidates {
    map pid | pid in ProposedPids(actions) && (pid in c || !f.launchActive) ::
      if f.launchActive then c[pid] else Counted(c, f, pid)
  }

  /** The counters after the filter has gone over `actions`, before the pruning. */
  function AfterFilter(c: Candidates, f: Fluidity, actions: seq<RootAction>): Candidates {
    if f.launchActive then c
    else
      map pid | pid in c.Keys + ProposedPids(actions) ::
        if pid in ProposedPids(actions) then Counted(c, f, pid) else c[pid]
  }

  class FreezeGate {
    var freezeCandidates: Candidates

    constructor ()
      ensures freezeCandidates == map[]
    {
      freezeCandidates := map[];
    }

    method ApplyFreezeConfirmation(actions: seq<RootAction>, fluidity: Fluidity) returns (confirmed: seq<RootAction>)
      modifies this
      ensures confirmed == Confirmed(old(freezeCandidates), fluidity, actions)
      ensures freezeCandidates == NextCandidates(old(freezeCandidates), fluidity, actions)
    {
      var proposed := ProposedPids(actions);
      var seen: set<nat> := {};
      confirmed := [];
      for i := 0 to |actions|
        invariant seen == ProposedPids(actions[..i])
        invariant confirmed == Confirmed(old(freezeCandidates), fluidity, actions[..i])
        invariant freezeCandidates == AfterFilter(old(freezeCandidates), fluidity, actions[..i])
      {
        ProposedGrow(actions, i);
        AdmissionCounts(old(freezeCandidates), fluidity, actions, i);
        assert actions[..i + 1][..i] == actions[..i];
        var keep := Admit(seen, actions[i], fluidity);
        if actions[i].FreezeProcess? {
          seen := seen + {actions[i].pid as nat};
        }
        if keep {
          confirmed := confirmed + [actions[i]];
        }
      }
      assert actions[..|actions|] == actions;
      freezeCandidates := map pid | pid in freezeCandidates && pid in proposed :: freezeCandidates[pid];
    }

    /** The filter's test of one action, which counts the first proposal of a process. */
    method Admit(seen: set<nat>, a: RootAction, fluidity: Fluidity) returns (keep: bool)
      modifies this
      ensures keep == !(a.FreezeProcess? && (fluidity.launchActive || a.pid in seen
                                             || Counted(old(freezeCandidates), fluidity, a.pid) < Required(fluidity)))
      ensures freezeCandidates == if a.FreezeProcess? && !fluidity.launchActive && a.pid !in seen
                                  then old(freezeCandidates)
                                         [a.pid as nat := Counted(old(freezeCandidates), fluidity, a.pid)]
                                  else old(freezeCandidates)
    {
      if !a.FreezeProcess? {
        return true;
      }
      if fluidity.launchActive || a.pid in seen {
        return false;
      }
      var required := if Preemptive(fluidity) then 1 else 2;
      var count := if a.pid in freezeCandidates then freezeCandidates[a.pid] else 0;
      count := Min(count + 1, required + 1);
      freezeCandidates := freezeCandidates[a.pid as nat := count];
      keep := required <= count;
    }
  }

  lemma ProposedGrow(actions: seq<RootAction>, i: nat)
    requires i < |actions|
    ensures ProposedPids(actions[..i + 1])
         == ProposedPids(actions[..i]) + if actions[i].FreezeProcess? then {actions[i].pid as nat} else {}
  {
    var before, after := actions[..i], actions[..i + 1];
    assert forall k | 0 <= k < i :: after[k] == before[k];
    assert after[i] == actions[i];
  }

  /** The filter counts the first proposal of a process in a cycle and nothing else. */
  lemma AdmissionCounts(c: Candidates, f: Fluidity, actions: seq<RootAction>, i: nat)
    requires i < |actions|
    ensures var a, before := actions[i], AfterFilter(c, f, actions[..i]);
            AfterFilter(c, f, actions[..i + 1])
            == if a.FreezeProcess? && !f.launchActive && a.pid !in ProposedPids(actions[..i])
               then before[a.pid as nat := Counted(before, f, a.pid)] else before
    ensures var a := actions[i];
            a.FreezeProcess? && a.pid !in ProposedPids(actions[..i])
            ==> Counted(AfterFilter(c, f, actions[..i]), f, a.pid) == Counted(c, f, a.pid)
  {
    ProposedGrow(actions, i);
  }

  // ------------------------------------------------------------------- one cycle

  function FreezeOf(pid: nat): RootAction -> bool {
    (a: RootAction) => a.FreezeProcess? && a.pid == pid
  }

  function OtherThanFreeze(): RootAction -> bool {
    (a: RootAction) => !a.FreezeProcess?
  }

  function First<T>(s: seq<T>): seq<T> {
    if s == [] then [] else [s[0]]
  }

  lemma {:induction false} FreezesAreProposed(actions: seq<RootAction>, pid: nat)
    ensures Filter(FreezeOf(pid), actions) != [] <==> pid in ProposedPids(actions)
  {
    if actions != [] {
      var n := |actions| - 1;
      FreezesAreProposed(actions[..n], pid);
      ProposedGrow(actions, n);
      assert actions[..n + 1] == actions;
    }
  }

  lemma ConfirmedStep(c: Candidates, f: Fluidity, actions: seq<RootAction>, q: RootAction -> bool)
    requires actions != []
    ensures var n := |actions| - 1;
            var kept := Filter(q, Confirmed(c, f, actions[..n]));
            Filter(q, Confirmed(c, f, actions))
            == if !q(actions[n]) || (actions[n].FreezeProcess?
                   && (actions[n].pid in ProposedPids(actions[..n]) || !Confirms(c, f, actions[n].pid)))
               then kept else kept + [actions[n]]
  {
    var out := Confirmed(c, f, actions[..|actions| - 1]);
    FilterAppend(q, out, actions[|actions| - 1]);
    assert out + [] == out;
  }

  /** In one cycle a process gets its first proposal if it is confirmed, and otherwise nothing. */
  lemma {:induction false} ConfirmedFreezes(c: Candidates, f: Fluidity, actions: seq<RootAction>, pid: nat)
    ensures Filter(FreezeOf(pid), Confirmed(c, f, actions))
         == if Confirms(c, f, pid) then First(Filter(FreezeOf(pid), actions)) else []
  {
    if actions != [] {
      var n := |actions| - 1;
      ConfirmedFreezes(c, f, actions[..n], pid);
      FreezesAreProposed(actions[..n], pid);
      ConfirmedStep(c, f, actions, FreezeOf(pid));
    }
  }

  /** Every other action passes the gate unchanged and in order. */
  lemma {:induction false} OtherActionsPass(c: Candidates, f: Fluidity, actions: seq<RootAction>)
    ensures Filter(OtherThanFreeze(), Confirmed(c, f, actions)) == Filter(OtherThanFreeze(), actions)
  {
    if actions != [] {
      OtherActionsPass(c, f, actions[..|actions| - 1]);
      ConfirmedStep(c, f, actions, OtherThanFreeze());
    }
  }

  // ------------------------------------------------------------------ whole runs

  datatype Cycle = Cycle(actions: seq<RootAction>, fluidity: Fluidity)

  function Gate(history: seq<Cycle>): Candidates {
    if history == [] then map[]
    else
      var last := history[|history| - 1];
      NextCandidates(Gate(history[..|history| - 1]), last.fluidity, last.actions)
  }

  predicate Proposes(c: Cycle, pid: nat) {
    pid in ProposedPids(c.actions)
  }

  /** Every cycle from the `k`-th to the latest proposes `pid`. */
  predicate InRun(history: seq<Cycle>, k: nat, pid: nat) {
    k < |history| && forall j | k <= j < |history| :: Proposes(history[j], pid)
  }

  /** The unbroken run of cycles proposing `pid` contains one without a launch. */
  ghost predicate SeenWithoutLaunch(history: seq<Cycle>, pid: nat) {
    exists k: nat :: InRun(history, k, pid) && !history[k].fluidity.launchActive
  }

  /** How many such cycles the run contains. */
  function Credits(history: seq<Cycle>, pid: nat): nat {
    if history == [] || !Proposes(history[|history| - 1], pid) then 0
    else Credits(history[..|history| - 1], pid) + if history[|history| - 1].fluidity.launchActive then 0 else 1
  }

  /** The cap in force at the latest cycle without a launch. */
  function LastCap(history: seq<Cycle>): nat {
    if history == [] then 0
    else if history[|history| - 1].fluidity.launchActive then LastCap(history[..|history| - 1])
    else Required(history[|history| - 1].fluidity) + 1
  }

  lemma RunExtends(history: seq<Cycle>, k: nat, pid: nat)
    requires k + 1 < |history|
    ensures InRun(history, k, pid) <==>
              InRun(history[..|history| - 1], k, pid) && Proposes(history[|history| - 1], pid)
  {
  }

  lemma SeenStep(history: seq<Cycle>, pid: nat)
    requires history != []
    ensures var n := |history| - 1;
            SeenWithoutLaunch(history, pid) <==>
              Proposes(history[n], pid) && (!history[n].fluidity.launchActive || SeenWithoutLaunch(history[..n], pid))
  {
    var n := |history| - 1;
    var earlier := history[..n];
    if SeenWithoutLaunch(history, pid) {
      var k: nat :| InRun(history, k, pid) && !history[k].fluidity.launchActive;
      if k < n {
        RunExtends(history, k, pid);
        assert InRun(earlier, k, pid) && !earlier[k].fluidity.launchActive;
      }
    }
    if Proposes(history[n], pid) && SeenWithoutLaunch(earlier, pid) {
      var k: nat :| InRun(earlier, k, pid) && !earlier[k].fluidity.launchActive;
      RunExtends(history, k, pid);
      assert InRun(history, k, pid) && !history[k].fluidity.launchActive;
    }
    if Proposes(history[n], pid) && !history[n].fluidity.launchActive {
      assert InRun(history, n, pid);
    }
  }

  lemma {:induction false} CreditsMeanSeen(history: seq<Cycle>, pid: nat)
    ensures 0 < Credits(history, pid) <==> SeenWithoutLaunch(history, pid)
  {
    if history == [] {
    } else {
      CreditsMeanSeen(history[..|history| - 1], pid);
      SeenStep(history, pid);
    }
  }

  /** The counter map is a function of the history: which processes it holds, and each count. */
  lemma {:induction false} GateTracksHistory(history: seq<Cycle>, pid: nat)
    ensures pid in Gate(history) <==> SeenWithoutLaunch(history, pid)
    ensures pid in Gate(history) ==> Gate(history)[pid] == Min(Credits(history, pid), LastCap(history))
    ensures pid in Gate(history) ==> 2 <= LastCap(history)
    ensures pid in Gate(history) ==> history != [] && Proposes(history[|history| - 1], pid)
  {
    CreditsMeanSeen(history, pid);
    if history != [] {
      GateTracksHistory(history[..|history| - 1], pid);
      CreditsMeanSeen(history[..|history| - 1], pid);
    }
  }

  /** The gate, exactly: a freeze leaves it in a cycle if and only if it is proposed, no launch is
      active, and the cycle is pre-emptive or the run of proposing cycles up to the previous one
      contains a cycle without a launch. At most one freeze leaves for each process. */
  lemma FreezeGateIsExact(history: seq<Cycle>, cycle: Cycle, pid: nat)
    ensures var proposals, f := Filter(FreezeOf(pid), cycle.actions), cycle.fluidity;
            Filter(FreezeOf(pid), Confirmed(Gate(history), f, cycle.actions))
            == if && !f.launchActive
                  && ((f.predicted3s < 0.60 && f.velocity < -0.05) || SeenWithoutLaunch(history, pid))
               then First(proposals) else []
    ensures Filter(FreezeOf(pid), cycle.actions) != [] <==> Proposes(cycle, pid)
  {
    ConfirmedFreezes(Gate(history), cycle.fluidity, cycle.actions, pid);
    FreezesAreProposed(cycle.actions, pid);
    GateTracksHistory(history, pid);
    CreditsMeanSeen(history, pid);
  }

  // --------------------------------------------------------- two proposing cycles

  /** The process is proposed in this cycle and in the one before. */
  predicate ProposedTwice(history: seq<Cycle>, cycle: Cycle, pid: nat) {
    history != [] && Proposes(history[|history| - 1], pid) && Proposes(cycle, pid)
  }

  /** Some freeze of the process leaves the gate. */
  predicate Leaves(history: seq<Cycle>, cycle: Cycle, pid: nat) {
    Filter(FreezeOf(pid), Confirmed(Gate(history), cycle.fluidity, cycle.actions)) != []
  }

  /** Without pre-emption a freeze leaves only after two consecutive proposing cycles. */
  lemma TwoProposalsAreNecessary(history: seq<Cycle>, cycle: Cycle, pid: nat)
    requires !Preemptive(cycle.fluidity) && Leaves(history, cycle, pid)
    ensures ProposedTwice(history, cycle, pid) && !cycle.fluidity.launchActive
  {
    FreezeGateIsExact(history, cycle, pid);
    GateTracksHistory(history, pid);
  }

  /** They are enough if and only if the run of proposing cycles up to the previous one is not
      made of launch cycles alone. */
  lemma TwoProposalsSufficeExactly(history: seq<Cycle>, cycle: Cycle, pid: nat)
    requires !cycle.fluidity.launchActive && !Preemptive(cycle.fluidity)
    requires ProposedTwice(history, cycle, pid)
    ensures Leaves(history, cycle, pid) <==>
              exists k: nat :: InRun(history, k, pid) && !history[k].fluidity.launchActive
  {
    FreezeGateIsExact(history, cycle, pid);
  }

  /** Any number of launch cycles and then an ordinary one, all proposing: nothing leaves. */
  lemma LaunchCyclesDoNotCount(freeze: RootAction, launch: Fluidity, calm: Fluidity, n: nat)
    requires freeze.FreezeProcess? && 1 <= n
    requires launch.launchActive && !calm.launchActive && !Preemptive(calm)
    ensures ProposedTwice(Repeated(Cycle([freeze], launch), n), Cycle([freeze], calm), freeze.pid)
    ensures !Leaves(Repeated(Cycle([freeze], launch), n), Cycle([freeze], calm), freeze.pid)
  {
    ProposedGrow([freeze], 0);
    assert [freeze][..0 + 1] == [freeze];
    TwoProposalsSufficeExactly(Repeated(Cycle([freeze], launch), n), Cycle([freeze], calm), freeze.pid);
  }
}
