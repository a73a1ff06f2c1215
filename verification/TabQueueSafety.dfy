/** What every interleaving of the service worker's steps keeps. */
module TabQueueSafety {
  import opened InsertionMaps
  import opened NavigationTracking
  import opened Sequences
  import opened TabQueues
  import opened Wrappers

  // ------------------------------------------------------------------ the queues

  /** A prior is an earlier operation of the same tab. */
  ghost predicate PriorsPointBack(ops: seq<Operation>) {
    forall j | 0 <= j < |ops| && ops[j].prior.Some? ::
      ops[j].prior.value < j && ops[ops[j].prior.value].tab == ops[j].tab
  }

  /** No operation of the tab was enqueued between a prior and its successor. */
  ghost predicate PriorsAreLatest(ops: seq<Operation>) {
    forall i, j | 0 <= i < j < |ops| && ops[j].prior.Some? && ops[i].tab == ops[j].tab ::
      i <= ops[j].prior.value
  }

  /** Without a prior, everything enqueued earlier for that tab has settled. */
  ghost predicate FreshStarts(ops: seq<Operation>) {
    forall i, j | 0 <= i < j < |ops| && ops[j].prior.None? && ops[i].tab == ops[j].tab ::
      ops[i].status == Settled
  }

  ghost predicate Chained(ops: seq<Operation>) {
    PriorsPointBack(ops) && PriorsAreLatest(ops) && FreshStarts(ops)
  }

  /** An operation leaves the pending state only when all earlier ones of its tab have settled. */
  ghost predicate Serial(ops: seq<Operation>) {
    forall i, j | 0 <= i < j < |ops| && ops[i].tab == ops[j].tab && ops[j].status != Pending ::
      ops[i].status == Settled
  }

  /** A tab's queue entry is its latest operation, and a tab without one has nothing left to do. */
  ghost predicate Tailed(w: Worker) {
    && (forall t | t in w.queues ::
          w.queues[t] < |w.ops| && w.ops[w.queues[t]].tab == t && !w.ops[w.queues[t]].tailCleared)
    && (forall t, i | t in w.queues && w.queues[t] < i < |w.ops| :: w.ops[i].tab != t)
    && (forall i | 0 <= i < |w.ops| && w.ops[i].tab !in w.queues :: w.ops[i].status == Settled)
  }

  lemma EnqueueKeepsPriors(w: Worker, tab: nat, plan: seq<Emission>)
    requires PriorsPointBack(w.ops) && PriorsAreLatest(w.ops) && Tailed(w)
    ensures PriorsPointBack(Enqueued(w, tab, plan).ops) && PriorsAreLatest(Enqueued(w, tab, plan).ops)
  {
  }

  lemma EnqueueKeepsFreshStarts(w: Worker, tab: nat, plan: seq<Emission>)
    requires FreshStarts(w.ops) && Tailed(w)
    ensures FreshStarts(Enqueued(w, tab, plan).ops)
  {
  }

  lemma EnqueueKeepsTailed(w: Worker, tab: nat, plan: seq<Emission>)
    requires Tailed(w)
    ensures Tailed(Enqueued(w, tab, plan))
  {
  }

  lemma EnqueueKeepsSerial(w: Worker, tab: nat, plan: seq<Emission>)
    requires Serial(w.ops)
    ensures Serial(Enqueued(w, tab, plan).ops)
  {
  }

  /** A status may change only forwards: nothing leaves `Settled` or returns to `Pending`. */
  ghost predicate Onward(before: Status, after: Status) {
    && (before == Settled ==> after == Settled)
    && (before != Pending ==> after != Pending)
  }

  lemma StatusKeepsChained(w: Worker, i: nat, status: Status)
    requires Chained(w.ops) && i < |w.ops| && Onward(w.ops[i].status, status)
    ensures Chained(WithStatus(w, i, status).ops)
  {
  }

  lemma StatusKeepsSerial(w: Worker, i: nat, status: Status)
    requires Serial(w.ops) && i < |w.ops| && Onward(w.ops[i].status, status)
    requires w.ops[i].status != Pending
             || forall k | 0 <= k < i && w.ops[k].tab == w.ops[i].tab :: w.ops[k].status == Settled
    ensures Serial(WithStatus(w, i, status).ops)
  {
  }

  lemma StatusKeepsTailed(w: Worker, i: nat, status: Status)
    requires Tailed(w) && i < |w.ops| && Onward(w.ops[i].status, status)
    ensures Tailed(WithStatus(w, i, status))
  {
  }

  /** When its prior has settled, everything before an operation has. */
  lemma PriorSettled(ops: seq<Operation>, j: nat)
    requires Chained(ops) && Serial(ops) && j < |ops|
    requires ops[j].prior.Some? ==> ops[j].prior.value < |ops| && ops[ops[j].prior.value].status == Settled
    ensures forall i | 0 <= i < j && ops[i].tab == ops[j].tab :: ops[i].status == Settled
  {
  }

  lemma ClearKeepsChain(w: Worker, i: nat)
    requires Chained(w.ops) && Serial(w.ops) && i < |w.ops|
    ensures Chained(TailCleared(w, i).ops) && Serial(TailCleared(w, i).ops)
  {
    var v := TailCleared(w, i);
    assert forall k | 0 <= k < |w.ops| :: v.ops[k] == w.ops[k].(tailCleared := v.ops[k].tailCleared);
  }

  lemma ClearKeepsTailed(w: Worker, i: nat)
    requires Serial(w.ops) && Tailed(w) && i < |w.ops| && w.ops[i].status == Settled
    ensures Tailed(TailCleared(w, i))
  {
  }

  ghost predicate QueuesSound(w: Worker) {
    Chained(w.ops) && Serial(w.ops) && Tailed(w)
  }

  lemma EnqueueKeepsQueues(w: Worker, tab: nat, plan: seq<Emission>)
    requires QueuesSound(w)
    ensures QueuesSound(Enqueued(w, tab, plan))
  {
    EnqueueKeepsPriors(w, tab, plan);
    EnqueueKeepsFreshStarts(w, tab, plan);
    EnqueueKeepsTailed(w, tab, plan);
    EnqueueKeepsSerial(w, tab, plan);
  }

  lemma StatusKeepsQueues(w: Worker, i: nat, status: Status)
    requires QueuesSound(w) && i < |w.ops| && Onward(w.ops[i].status, status)
    requires w.ops[i].status != Pending
             || forall k | 0 <= k < i && w.ops[k].tab == w.ops[i].tab :: w.ops[k].status == Settled
    ensures QueuesSound(WithStatus(w, i, status))
  {
    StatusKeepsChained(w, i, status);
    StatusKeepsSerial(w, i, status);
    StatusKeepsTailed(w, i, status);
  }

  lemma ListenerKeepsQueues(w: Worker, s: Step)
    requires QueuesSound(w) && (s.BeforeNavigate? || s.Lifecycle? || s.TabRemoved? || s.Vitals?)
    ensures QueuesSound(Apply(w, s))
  {
    var held := Get(w.tracker.tabs, s.tab);
    match s
    case BeforeNavigate(tab, _) =>
      EnqueueKeepsQueues(w.(tracker := StartedNav(w.tracker, tab)), tab, StartPlan(w.tracker, tab));
    case Lifecycle(tab, _, phase) => EnqueueKeepsQueues(w, tab, Plan(held, phase));
    case TabRemoved(tab) =>
      EnqueueKeepsQueues(w.(tracker := ClosedNav(w.tracker, tab)), tab, Plan(held, AbandonedPage));
    case Vitals(tab) => EnqueueKeepsQueues(w, tab, Plan(held, SettledVitals));
  }

  lemma EmitKeepsQueues(w: Worker, i: nat, outcome: Outcome)
    requires QueuesSound(w) && Enabled(w, Emit(i, outcome))
    ensures QueuesSound(Emitted(w, i, outcome))
  {
    var status := if outcome == Thrown then Finished else Running(w.ops[i].status.next + 1);
    var v, e := WithStatus(w, i, status), Emitted(w, i, outcome);
    assert e.ops == v.ops && e.queues == v.queues;
    assert QueuesSound(v) by { StatusKeepsQueues(w, i, status); }
    SameQueues(v, e);
  }

  lemma SameQueues(w: Worker, v: Worker)
    requires QueuesSound(w) && v.ops == w.ops && v.queues == w.queues
    ensures QueuesSound(v)
  {
  }

  lemma StepKeepsQueues(w: Worker, s: Step)
    requires QueuesSound(w) && Enabled(w, s)
    ensures QueuesSound(Apply(w, s))
  {
    match s
    case StartOperation(i) =>
      PriorSettled(w.ops, i);
      StatusKeepsQueues(w, i, Running(0));
    case Emit(i, outcome) => EmitKeepsQueues(w, i, outcome);
    case Reject(i) => StatusKeepsQueues(w, i, Finished);
    case Finish(i) => StatusKeepsQueues(w, i, Finished);
    case Settle(i) => StatusKeepsQueues(w, i, Settled);
    case ClearTail(i) =>
      ClearKeepsChain(w, i);
      ClearKeepsTailed(w, i);
    case _ => ListenerKeepsQueues(w, s);
  }

  lemma {:induction false} QueuesAreSound(capacity: nat, steps: seq<Step>)
    ensures QueuesSound(RunSteps(capacity, steps))
  {
    if steps == [] {
    } else {
      var w := RunSteps(capacity, steps[..|steps| - 1]);
      QueuesAreSound(capacity, steps[..|steps| - 1]);
      if Enabled(w, steps[|steps| - 1]) {
        StepKeepsQueues(w, steps[|steps| - 1]);
      }
    }
  }

  predicate InFlight(o: Operation) {
    o.status.Running? || o.status.Finished?
  }

  /** In every interleaving each tab has at most one operation in flight, and an operation has
      started only if every operation enqueued before it for that tab has settled. */
  lemma OperationsAreSerial(capacity: nat, steps: seq<Step>, i: nat, j: nat)
    requires i < j < |RunSteps(capacity, steps).ops|
    requires RunSteps(capacity, steps).ops[i].tab == RunSteps(capacity, steps).ops[j].tab
    ensures var ops := RunSteps(capacity, steps).ops;
            && !(InFlight(ops[i]) && InFlight(ops[j]))
            && (ops[j].status != Pending ==> ops[i].status == Settled)
  {
    QueuesAreSound(capacity, steps);
  }

  // -------------------------------------------------------------------- progress

  /** The next thing the runtime can do for an operation that has not settled. */
  function Advance(w: Worker, i: nat): Step
    requires i < |w.ops|
  {
    match w.ops[i].status
    case Pending => StartOperation(i)
    case Running(next) => if next < |w.ops[i].plan| then Emit(i, Posted) else Finish(i)
    case Finished => Settle(i)
    case Settled => ClearTail(i)
  }

  /** No operation is past the end of its plan, and only settled ones have cleaned up. */
  ghost predicate PositionsInRange(w: Worker) {
    && (forall i | 0 <= i < |w.ops| && w.ops[i].status.Running? :: w.ops[i].status.next <= |w.ops[i].plan|)
    && (forall i | 0 <= i < |w.ops| && w.ops[i].tailCleared :: w.ops[i].status == Settled)
  }

  lemma StepKeepsPositions(w: Worker, s: Step)
    requires PositionsInRange(w)
    ensures PositionsInRange(Exec(w, s))
  {
  }

  lemma {:induction false} PositionsAreInRange(capacity: nat, steps: seq<Step>)
    ensures PositionsInRange(RunSteps(capacity, steps))
  {
    if steps == [] {
    } else {
      PositionsAreInRange(capacity, steps[..|steps| - 1]);
      StepKeepsPositions(RunSteps(capacity, steps[..|steps| - 1]), steps[|steps| - 1]);
    }
  }

  lemma {:induction false} FirstUnsettled(ops: seq<Operation>, tab: nat, i: nat) returns (f: nat)
    requires i < |ops| && ops[i].tab == tab && ops[i].status != Settled
    ensures f <= i && ops[f].tab == tab && ops[f].status != Settled
    ensures forall k | 0 <= k < f && ops[k].tab == tab :: ops[k].status == Settled
  {
    if k :| 0 <= k < i && ops[k].tab == tab && ops[k].status != Settled {
      f := FirstUnsettled(ops, tab, k);
    } else {
      f := i;
    }
  }

  ghost predicate Orderly(w: Worker) {
    QueuesSound(w) && PositionsInRange(w)
  }

  lemma EarliestCanAdvance(w: Worker, i: nat)
    requires Orderly(w) && i < |w.ops| && w.ops[i].status != Settled
    ensures exists f :: 0 <= f <= i && w.ops[f].tab == w.ops[i].tab && w.ops[f].status != Settled
                        && Enabled(w, Advance(w, f))
  {
    var f := FirstUnsettled(w.ops, w.ops[i].tab, i);
    assert Enabled(w, Advance(w, f));
  }

  /** No queue ever wedges: whatever failed before and whatever other tabs are doing, a tab with
      unsettled work has an operation that can advance, and it is the earliest one. */
  lemma TabsNeverWedge(capacity: nat, steps: seq<Step>, i: nat)
    requires i < |RunSteps(capacity, steps).ops| && RunSteps(capacity, steps).ops[i].status != Settled
    ensures var w := RunSteps(capacity, steps);
            exists f :: 0 <= f <= i && w.ops[f].tab == w.ops[i].tab && w.ops[f].status != Settled
                        && Enabled(w, Advance(w, f))
  {
    QueuesAreSound(capacity, steps);
    PositionsAreInRange(capacity, steps);
    EarliestCanAdvance(RunSteps(capacity, steps), i);
  }

  /** Once every operation has settled and run its cleanup, no queue entry is left behind. */
  lemma QueuesDrain(capacity: nat, steps: seq<Step>)
    requires forall i | 0 <= i < |RunSteps(capacity, steps).ops| :: RunSteps(capacity, steps).ops[i].tailCleared
    ensures RunSteps(capacity, steps).queues == map[]
  {
    QueuesAreSound(capacity, steps);
  }

  function OpWork(o: Operation): nat {
    match o.status
    case Pending => |o.plan| + 4
    case Running(next) => if next <= |o.plan| then |o.plan| - next + 3 else 3
    case Finished => 2
    case Settled => if o.tailCleared then 0 else 1
  }

  /** How many steps the runtime still has to take for these operations. */
  function Work(ops: seq<Operation>): nat {
    if ops == [] then 0 else Work(ops[..|ops| - 1]) + OpWork(ops[|ops| - 1])
  }

  lemma {:induction false} WorkChanges(ops: seq<Operation>, i: nat, o: Operation)
    requires i < |ops|
    ensures Work(ops[i := o]) == Work(ops) - OpWork(ops[i]) + OpWork(o)
  {
    var n := |ops| - 1;
    if i < n {
      assert ops[i := o][..n] == ops[..n][i := o];
      WorkChanges(ops[..n], i, o);
    } else {
      assert ops[i := o][..n] == ops[..n];
    }
  }

  /** An advance takes one step off the work. */
  lemma AdvancePays(w: Worker, i: nat)
    requires PositionsInRange(w) && i < |w.ops| && Enabled(w, Advance(w, i))
    ensures Work(Apply(w, Advance(w, i)).ops) == Work(w.ops) - 1
    ensures |Apply(w, Advance(w, i)).ops| == |w.ops|
  {
    var after := Apply(w, Advance(w, i));
    assert after.ops == w.ops[i := after.ops[i]];
    WorkChanges(w.ops, i, after.ops[i]);
  }

  predicate Advances(w: Worker, s: Step) {
    Enabled(w, s) && exists i: nat :: i < |w.ops| && s == Advance(w, i)
  }

  /** Nothing is left to do for any operation. */
  predicate Idle(w: Worker) {
    forall k | 0 <= k < |w.ops| :: OpWork(w.ops[k]) == 0
  }

  /** Unless the worker is idle, some operation can advance. */
  lemma SomeoneAdvances(w: Worker) returns (i: nat)
    requires Orderly(w) && !Idle(w)
    ensures i < |w.ops| && Enabled(w, Advance(w, i))
  {
    var k: nat :| k < |w.ops| && OpWork(w.ops[k]) > 0;
    if w.ops[k].status == Settled {
      i := k;
    } else {
      EarliestCanAdvance(w, k);
      i :| 0 <= i <= k && Enabled(w, Advance(w, i));
    }
  }

  lemma NextAdvance(w: Worker) returns (s: Step)
    requires Orderly(w) && !Idle(w)
    ensures Advances(w, s) && Orderly(Exec(w, s))
    ensures Work(Exec(w, s).ops) == Work(w.ops) - 1 && |Exec(w, s).ops| == |w.ops|
  {
    var i := SomeoneAdvances(w);
    s := Advance(w, i);
    AdvancePays(w, i);
    StepKeepsQueues(w, s);
    StepKeepsPositions(w, s);
  }

  function RunFrom(w: Worker, more: seq<Step>): Worker
    decreases |more|
  {
    if more == [] then w else RunFrom(Exec(w, more[0]), more[1..])
  }

  /** Every step is, when it is taken, an enabled advance of some operation. */
  predicate AllAdvance(w: Worker, more: seq<Step>)
    decreases |more|
  {
    more == [] || (Advances(w, more[0]) && AllAdvance(Exec(w, more[0]), more[1..]))
  }

  lemma {:induction false} WorkIsDone(ops: seq<Operation>)
    ensures (forall k | 0 <= k < |ops| :: OpWork(ops[k]) == 0) ==> Work(ops) == 0
  {
    if ops != [] { WorkIsDone(ops[..|ops| - 1]); }
  }

  /** Everything has settled and cleaned up, and no queue entry is left. */
  ghost predicate Drained(w: Worker) {
    && (forall i | 0 <= i < |w.ops| :: w.ops[i].status == Settled && w.ops[i].tailCleared)
    && w.queues == map[]
  }

  lemma IdleIsDrained(w: Worker)
    requires Orderly(w) && Idle(w)
    ensures Drained(w) && Work(w.ops) == 0
  {
    WorkIsDone(w.ops);
  }

  lemma {:induction false} CanDrain(w: Worker) returns (more: seq<Step>)
    requires Orderly(w)
    ensures AllAdvance(w, more) && |more| == Work(w.ops)
    ensures Drained(RunFrom(w, more)) && |RunFrom(w, more).ops| == |w.ops|
    decreases Work(w.ops)
  {
    if Idle(w) {
      more := [];
      IdleIsDrained(w);
    } else {
      var s := NextAdvance(w);
      var rest := CanDrain(Exec(w, s));
      more := [s] + rest;
      assert more[1..] == rest;
    }
  }

  lemma RunAppend(capacity: nat, steps: seq<Step>, s: Step)
    ensures RunSteps(capacity, steps + [s]) == Exec(RunSteps(capacity, steps), s)
  {
    assert (steps + [s])[..|steps|] == steps;
  }

  lemma {:induction false} RunContinues(capacity: nat, steps: seq<Step>, more: seq<Step>)
    ensures RunSteps(capacity, steps + more) == RunFrom(RunSteps(capacity, steps), more)
    decreases |more|
  {
    if more == [] {
      assert steps + more == steps;
    } else {
      RunAppend(capacity, steps, more[0]);
      RunContinues(capacity, steps + [more[0]], more[1..]);
      assert steps + [more[0]] + more[1..] == steps + more;
    }
  }

  /** Every queue drains: from any reachable worker the runtime can finish what is there by advances
      alone, in exactly as many steps as there is work. */
  lemma QueuesCanDrain(capacity: nat, steps: seq<Step>) returns (more: seq<Step>)
    ensures AllAdvance(RunSteps(capacity, steps), more) && |more| == Work(RunSteps(capacity, steps).ops)
    ensures Drained(RunSteps(capacity, steps + more))
    ensures |RunSteps(capacity, steps + more).ops| == |RunSteps(capacity, steps).ops|
  {
    QueuesAreSound(capacity, steps);
    PositionsAreInRange(capacity, steps);
    more := CanDrain(RunSteps(capacity, steps));
    RunContinues(capacity, steps, more);
  }

  // ------------------------------------------------------------ sequence numbers

  /** The number returned by the `c`-th call of `nextSequence`. */
  function NumberOf(c: nat): nat {
    if c == 0 then 0 else (c - 1) % MAX_SAFE_INTEGER + 1
  }

  ghost predicate Numbered(w: Worker) {
    && w.sequence == NumberOf(w.calls)
    && (forall a | 0 <= a < |w.log| :: 1 <= w.log[a].call <= w.calls && w.log[a].number == NumberOf(w.log[a].call))
    && (forall a, b | 0 <= a < b < |w.log| :: w.log[a].call < w.log[b].call)
  }

  lemma NumberSteps(c: nat)
    ensures NextSequence(NumberOf(c)) == NumberOf(c + 1)
  {
    if c > 0 {
      var q := (c - 1) / MAX_SAFE_INTEGER;
      assert c - 1 == q * MAX_SAFE_INTEGER + (c - 1) % MAX_SAFE_INTEGER;
      if (c - 1) % MAX_SAFE_INTEGER + 1 < MAX_SAFE_INTEGER {
        assert c / MAX_SAFE_INTEGER == q;
      } else {
        assert c / MAX_SAFE_INTEGER == q + 1;
      }
    }
  }

  lemma StepKeepsNumbers(w: Worker, s: Step)
    requires Numbered(w)
    ensures Numbered(Exec(w, s))
  {
    NumberSteps(w.calls);
  }

  lemma {:induction false} LogIsNumbered(capacity: nat, steps: seq<Step>)
    ensures Numbered(RunSteps(capacity, steps))
  {
    if steps == [] {
    } else {
      LogIsNumbered(capacity, steps[..|steps| - 1]);
      StepKeepsNumbers(RunSteps(capacity, steps[..|steps| - 1]), steps[|steps| - 1]);
    }
  }

  lemma NumberBeforeTheWrap(c: nat)
    requires 1 <= c <= MAX_SAFE_INTEGER
    ensures NumberOf(c) == c
  {
  }

  /** Posted numbers strictly increase, across all tabs, as long as the counter has not wrapped. */
  lemma NumbersIncreaseUntilTheWrap(capacity: nat, steps: seq<Step>, a: nat, b: nat)
    requires a < b < |RunSteps(capacity, steps).log|
    requires RunSteps(capacity, steps).calls <= 9_007_199_254_740_991
    ensures RunSteps(capacity, steps).log[a].number < RunSteps(capacity, steps).log[b].number
  {
    LogIsNumbered(capacity, steps);
    NumberBeforeTheWrap(RunSteps(capacity, steps).log[a].call);
    NumberBeforeTheWrap(RunSteps(capacity, steps).log[b].call);
  }

  /** One round of a new tab: a navigation starts, and its first event is posted. */
  function Round(k: nat): seq<Step> {
    [BeforeNavigate(k, 0), StartOperation(k), Emit(k, Posted)]
  }

  function Rounds(n: nat): seq<Step> {
    if n == 0 then [] else Rounds(n - 1) + Round(n - 1)
  }

  /** After `n` rounds: one operation for each tab, and every call has been posted. */
  ghost predicate Rounded(w: Worker, n: nat) {
    && |w.ops| == n && w.calls == n && |w.log| == n
    && (forall t | t in w.queues :: t < n)
    && (forall a | 0 <= a < n :: w.log[a].call == a + 1)
  }

  lemma RoundIsPosted(w: Worker, n: nat)
    requires Rounded(w, n)
    ensures Rounded(Exec(Exec(Exec(w, Round(n)[0]), Round(n)[1]), Round(n)[2]), n + 1)
  {
    var a := Exec(w, BeforeNavigate(n, 0));
    assert a.ops[n].prior.None? && a.ops[n].plan != [] && a.log == w.log && a.calls == w.calls;
    var b := Exec(a, StartOperation(n));
    assert b.ops[n].status == Running(0) && b.ops[n].plan == a.ops[n].plan && b.log == w.log;
    assert Enabled(b, Emit(n, Posted));
  }

  lemma RunThree(capacity: nat, steps: seq<Step>, a: Step, b: Step, c: Step)
    ensures RunSteps(capacity, steps + [a, b, c]) == Exec(Exec(Exec(RunSteps(capacity, steps), a), b), c)
  {
    RunAppend(capacity, steps, a);
    RunAppend(capacity, steps + [a], b);
    RunAppend(capacity, steps + [a] + [b], c);
    assert steps + [a] + [b] + [c] == steps + [a, b, c];
  }

  lemma {:induction false} RoundsArePosted(capacity: nat, n: nat)
    ensures Rounded(RunSteps(capacity, Rounds(n)), n)
  {
    if n > 0 {
      RoundsArePosted(capacity, n - 1);
      RunThree(capacity, Rounds(n - 1), BeforeNavigate(n - 1, 0), StartOperation(n - 1), Emit(n - 1, Posted));
      RoundIsPosted(RunSteps(capacity, Rounds(n - 1)), n - 1);
    }
  }

  /** The wrap is reachable: a run in which a later post has a lower number than the one before. */
  lemma TheWrapReversesTheOrder(capacity: nat)
    ensures var log := RunSteps(capacity, Rounds(9_007_199_254_740_992)).log;
            && |log| == 9_007_199_254_740_992
            && log[9_007_199_254_740_990].number == 9_007_199_254_740_991
            && log[9_007_199_254_740_991].number == 1
  {
    var n: nat := 9_007_199_254_740_992;
    RoundsArePosted(capacity, n);
    LogIsNumbered(capacity, Rounds(n));
    assert NumberOf(n) == 1 && NumberOf(n - 1) == n - 1;
  }

  /** How many times the counter had wrapped by call `c`. */
  function Wraps(c: nat): nat
    requires 0 < c
  {
    (c - 1) / MAX_SAFE_INTEGER
  }

  /** Between posts less than a full cycle of numbers apart, the order is right exactly when the
      counter did not wrap in between. */
  lemma NumbersIncreaseExactlyWithoutAWrap(capacity: nat, steps: seq<Step>, a: nat, b: nat)
    requires a < b < |RunSteps(capacity, steps).log|
    requires RunSteps(capacity, steps).log[b].call - RunSteps(capacity, steps).log[a].call < MAX_SAFE_INTEGER
    ensures var log := RunSteps(capacity, steps).log;
            && 0 < log[a].call && 0 < log[b].call
            && (log[a].number < log[b].number <==> Wraps(log[a].call) == Wraps(log[b].call))
  {
    LogIsNumbered(capacity, steps);
    var x, y := RunSteps(capacity, steps).log[a].call - 1, RunSteps(capacity, steps).log[b].call - 1;
    var qx, qy := x / MAX_SAFE_INTEGER, y / MAX_SAFE_INTEGER;
    assert x == qx * MAX_SAFE_INTEGER + x % MAX_SAFE_INTEGER;
    assert y == qy * MAX_SAFE_INTEGER + y % MAX_SAFE_INTEGER;
    assert qx <= qy <= qx + 1;
  }

  // ------------------------------------------------------------- posts and plans

  predicate Before(op: nat, position: nat, op': nat, position': nat) {
    op < op' || (op == op' && position < position')
  }

  /** Every post is a planned emission that its operation has already passed. */
  ghost predicate PostsArePlanned(w: Worker) {
    forall a | 0 <= a < |w.log| ::
      && w.log[a].op < |w.ops|
      && w.log[a].position < |w.ops[w.log[a].op].plan|
      && w.log[a].emission == w.ops[w.log[a].op].plan[w.log[a].position]
      && w.ops[w.log[a].op].status != Pending
      && (w.ops[w.log[a].op].status.Running? ==> w.log[a].position < w.ops[w.log[a].op].status.next)
  }

  /** Within a tab, posts come in the order of their operations and of the emissions inside each. */
  ghost predicate PostsInOrder(w: Worker) {
    forall a, b | 0 <= a < b < |w.log| && w.log[a].op < |w.ops| && w.log[b].op < |w.ops|
                  && w.ops[w.log[a].op].tab == w.ops[w.log[b].op].tab ::
      Before(w.log[a].op, w.log[a].position, w.log[b].op, w.log[b].position)
  }

  /** How many emissions of a run drew a number: all that happened, whatever became of them. */
  function Draws(capacity: nat, steps: seq<Step>): nat {
    if steps == [] then 0
    else
      var early, s := steps[..|steps| - 1], steps[|steps| - 1];
      Draws(capacity, early) + if s.Emit? && Enabled(RunSteps(capacity, early), s) then 1 else 0
  }

  /** And how many of them were posted. */
  function PostedDraws(capacity: nat, steps: seq<Step>): nat {
    if steps == [] then 0
    else
      var early, s := steps[..|steps| - 1], steps[|steps| - 1];
      PostedDraws(capacity, early)
      + if s.Emit? && Enabled(RunSteps(capacity, early), s) && s.outcome == Posted then 1 else 0
  }

  lemma StepDraws(w: Worker, s: Step)
    ensures Exec(w, s).calls == w.calls + if s.Emit? && Enabled(w, s) then 1 else 0
    ensures |Exec(w, s).log| == |w.log| + if s.Emit? && Enabled(w, s) && s.outcome == Posted then 1 else 0
  {
  }

  lemma {:induction false} DrawsAreCounted(capacity: nat, steps: seq<Step>)
    ensures RunSteps(capacity, steps).calls == Draws(capacity, steps)
    ensures |RunSteps(capacity, steps).log| == PostedDraws(capacity, steps)
  {
    if steps == [] {
    } else {
      DrawsAreCounted(capacity, steps[..|steps| - 1]);
      StepDraws(RunSteps(capacity, steps[..|steps| - 1]), steps[|steps| - 1]);
    }
  }

  /** A swallowed emission is like a posted one, except that nothing is posted; one that throws is like
      a rejected one, except that it has drawn a number. */
  lemma OutcomesCompared(w: Worker, i: nat)
    requires Enabled(w, Reject(i))
    ensures Exec(w, Emit(i, Swallowed)) == Exec(w, Emit(i, Posted)).(log := w.log)
    ensures Exec(w, Emit(i, Thrown))
         == Exec(w, Reject(i)).(sequence := NextSequence(w.sequence), calls := w.calls + 1)
  {
  }

  /** The posts of one operation. */
  function PostsOf(log: seq<Post>, i: nat): seq<Post> {
    Filter((p: Post) => p.op == i, log)
  }

  ghost predicate Over(w: Worker, i: nat) {
    i < |w.ops| && (w.ops[i].status == Finished || w.ops[i].status == Settled)
  }

  lemma OverStaysOver(w: Worker, s: Step, i: nat)
    requires Over(w, i)
    ensures Over(Exec(w, s), i) && PostsOf(Exec(w, s).log, i) == PostsOf(w.log, i)
  {
    var v := Exec(w, s);
    if |v.log| > |w.log| {
      assert v.log == w.log + [v.log[|w.log|]] && v.log[|w.log|].op != i;
      FilterAppend((p: Post) => p.op == i, w.log, v.log[|w.log|]);
    } else {
      assert v.log == w.log;
    }
  }

  /** An operation that has thrown, been rejected or finished never posts again, however the run goes on. */
  lemma {:induction false} NothingAfterTheEnd(w: Worker, more: seq<Step>, i: nat)
    requires Over(w, i)
    ensures PostsOf(RunFrom(w, more).log, i) == PostsOf(w.log, i)
    decreases |more|
  {
    if more != [] {
      OverStaysOver(w, more[0], i);
      NothingAfterTheEnd(Exec(w, more[0]), more[1..], i);
    }
  }

  /** In particular nothing planned after an emission that threw, or after a rejected wait. */
  lemma FailureEndsTheOperation(capacity: nat, steps: seq<Step>, i: nat, more: seq<Step>)
    requires Enabled(RunSteps(capacity, steps), Reject(i))
    ensures var posts := PostsOf(RunSteps(capacity, steps).log, i);
            && PostsOf(RunSteps(capacity, steps + [Emit(i, Thrown)] + more).log, i) == posts
            && PostsOf(RunSteps(capacity, steps + [Reject(i)] + more).log, i) == posts
  {
    RunAppend(capacity, steps, Emit(i, Thrown));
    RunAppend(capacity, steps, Reject(i));
    RunContinues(capacity, steps + [Emit(i, Thrown)], more);
    RunContinues(capacity, steps + [Reject(i)], more);
    NothingAfterTheEnd(RunSteps(capacity, steps + [Emit(i, Thrown)]), more, i);
    NothingAfterTheEnd(RunSteps(capacity, steps + [Reject(i)]), more, i);
  }

  /** The same operations up to status, with more appended. */
  ghost predicate Extends(before: seq<Operation>, after: seq<Operation>) {
    && |before| <= |after|
    && forall i | 0 <= i < |before| ::
         after[i].tab == before[i].tab && after[i].plan == before[i].plan
         && Onward(before[i].status, after[i].status)
         && (after[i].status.Running? && before[i].status != Pending ==>
               before[i].status.Running? && before[i].status.next <= after[i].status.next)
  }

  lemma QuietStepKeepsPosts(w: Worker, v: Worker)
    requires PostsArePlanned(w) && PostsInOrder(w)
    requires v.log == w.log && Extends(w.ops, v.ops)
    ensures PostsArePlanned(v) && PostsInOrder(v)
  {
  }

  lemma EmitKeepsPlans(w: Worker, i: nat, outcome: Outcome)
    requires PostsArePlanned(w) && Enabled(w, Emit(i, outcome))
    ensures PostsArePlanned(Emitted(w, i, outcome))
  {
  }

  lemma EmitKeepsOrder(w: Worker, i: nat, outcome: Outcome)
    requires PostsArePlanned(w) && PostsInOrder(w) && Serial(w.ops) && Enabled(w, Emit(i, outcome))
    ensures PostsInOrder(Emitted(w, i, outcome))
  {
    forall a | 0 <= a < |w.log| && w.ops[w.log[a].op].tab == w.ops[i].tab
      ensures Before(w.log[a].op, w.log[a].position, i, w.ops[i].status.next)
    {
      assert w.log[a].op <= i;
    }
  }

  lemma StepExtends(w: Worker, s: Step)
    requires Enabled(w, s)
    ensures Extends(w.ops, Apply(w, s).ops)
    ensures !s.Emit? ==> Apply(w, s).log == w.log
  {
  }

  lemma {:induction false} PostsFollowPlans(capacity: nat, steps: seq<Step>)
    ensures PostsArePlanned(RunSteps(capacity, steps)) && PostsInOrder(RunSteps(capacity, steps))
  {
    if steps == [] {
    } else {
      var w, s := RunSteps(capacity, steps[..|steps| - 1]), steps[|steps| - 1];
      PostsFollowPlans(capacity, steps[..|steps| - 1]);
      QueuesAreSound(capacity, steps[..|steps| - 1]);
      if Enabled(w, s) {
        if s.Emit? {
          EmitKeepsPlans(w, s.op, s.outcome);
          EmitKeepsOrder(w, s.op, s.outcome);
        } else {
          StepExtends(w, s);
          QuietStepKeepsPosts(w, Apply(w, s));
        }
      }
    }
  }

  // ------------------------------------------------------- navigations in order

  /** The tracker events among the steps. */
  function NavEvents(steps: seq<Step>): seq<NavEvent> {
    if steps == [] then []
    else
      var s := steps[|steps| - 1];
      NavEvents(steps[..|steps| - 1])
      + if s.BeforeNavigate? && s.frame == 0 then [NavEvent.Start(s.tab)]
        else if s.TabRemoved? then [Close(s.tab)] else []
  }

  lemma ExecTracker(w: Worker, s: Step)
    ensures Exec(w, s).tracker
         == if s.BeforeNavigate? && s.frame == 0 then StartedNav(w.tracker, s.tab)
            else if s.TabRemoved? then ClosedNav(w.tracker, s.tab)
            else w.tracker
  {
  }

  lemma NavRunStep(capacity: nat, events: seq<NavEvent>, e: NavEvent)
    ensures NavRun(capacity, events + [e]).tracker
         == if e.Start? then StartedNav(NavRun(capacity, events).tracker, e.tabId)
            else ClosedNav(NavRun(capacity, events).tracker, e.tabId)
  {
    assert (events + [e])[..|events|] == events;
  }

  /** The worker's tracker is the plain tracker run on those events, so its contract carries over. */
  lemma {:induction false} WorkerRunsTheTracker(capacity: nat, steps: seq<Step>)
    ensures RunSteps(capacity, steps).tracker == NavRun(capacity, NavEvents(steps)).tracker
  {
    if steps != [] {
      var early, s := steps[..|steps| - 1], steps[|steps| - 1];
      WorkerRunsTheTracker(capacity, early);
      ExecTracker(RunSteps(capacity, early), s);
      if s.BeforeNavigate? && s.frame == 0 {
        NavRunStep(capacity, NavEvents(early), NavEvent.Start(s.tab));
      } else if s.TabRemoved? {
        NavRunStep(capacity, NavEvents(early), Close(s.tab));
      } else {
        assert NavEvents(early) + [] == NavEvents(early);
      }
    }
  }

  /** The planned emissions of a tab never go back to an older navigation. */
  ghost predicate PlansAscend(ops: seq<Operation>) {
    forall i, p, j, q | 0 <= i < |ops| && 0 <= p < |ops[i].plan| && 0 <= j < |ops| && 0 <= q < |ops[j].plan|
                        && ops[i].tab == ops[j].tab && Before(i, p, j, q) ::
      ops[i].plan[p].record.navigationId <= ops[j].plan[q].record.navigationId
  }

  /** What a tab has planned is older than every future navigation and no newer than the record
      that the tracker holds for it. */
  ghost predicate PlansBounded(w: Worker) {
    && (forall i, p | 0 <= i < |w.ops| && 0 <= p < |w.ops[i].plan| ::
          w.ops[i].plan[p].record.navigationId < w.tracker.drawn && w.ops[i].plan[p].record.tabId == w.ops[i].tab)
    && (forall i, p, k | 0 <= i < |w.ops| && 0 <= p < |w.ops[i].plan| && 0 <= k < |w.tracker.tabs|
                         && w.tracker.tabs[k].0 == w.ops[i].tab ::
          w.ops[i].plan[p].record.navigationId <= w.tracker.tabs[k].1.navigationId)
  }

  /** `plan` may follow what the tab has planned so far. */
  ghost predicate Continues(w: Worker, tab: nat, plan: seq<Emission>) {
    && (forall p, q | 0 <= p < q < |plan| :: plan[p].record.navigationId <= plan[q].record.navigationId)
    && (forall i, p, q | 0 <= i < |w.ops| && 0 <= p < |w.ops[i].plan| && 0 <= q < |plan| && w.ops[i].tab == tab ::
          w.ops[i].plan[p].record.navigationId <= plan[q].record.navigationId)
  }

  lemma EnqueueKeepsAscent(w: Worker, tab: nat, plan: seq<Emission>)
    requires PlansAscend(w.ops) && Continues(w, tab, plan)
    ensures PlansAscend(Enqueued(w, tab, plan).ops)
  {
  }

  lemma SamePlansAscend(before: seq<Operation>, after: seq<Operation>)
    requires PlansAscend(before) && |after| == |before| && Extends(before, after)
    ensures PlansAscend(after)
  {
  }

  ghost predicate NavigationsSound(w: Worker) {
    Consistent(w.tracker) && PlansAscend(w.ops) && PlansBounded(w)
  }

  /** A captured record continues its tab's plan and stays within the tracker's bounds. */
  lemma CaptureKeepsNavigations(w: Worker, tab: nat, phase: EventPhase)
    requires NavigationsSound(w)
    ensures NavigationsSound(Enqueued(w, tab, Plan(Get(w.tracker.tabs, tab), phase)))
  {
    HeldRecordContinues(w, tab, phase);
    EnqueueKeepsNavigations(w, tab, Plan(Get(w.tracker.tabs, tab), phase));
  }

  lemma CloseKeepsNavigations(w: Worker, tab: nat)
    requires NavigationsSound(w)
    ensures NavigationsSound(w.(tracker := ClosedNav(w.tracker, tab)))
    ensures !Has(ClosedNav(w.tracker, tab).tabs, tab)
  {
    CloseIsConsistent(w.tracker, tab);
    DeleteShifts(w.tracker.tabs, tab);
    DeleteKeepsDistinct(w.tracker.tabs, tab);
  }

  /** `plan` is about `tab`, and no newer than what the tracker holds for it. */
  ghost predicate Fits(t: Tracker, tab: nat, plan: seq<Emission>) {
    && (forall q | 0 <= q < |plan| :: plan[q].record.tabId == tab && plan[q].record.navigationId < t.drawn)
    && (forall q, k | 0 <= q < |plan| && 0 <= k < |t.tabs| && t.tabs[k].0 == tab ::
          plan[q].record.navigationId <= t.tabs[k].1.navigationId)
  }

  lemma HeldRecordContinues(w: Worker, tab: nat, phase: EventPhase)
    requires NavigationsSound(w)
    ensures Continues(w, tab, Plan(Get(w.tracker.tabs, tab), phase))
    ensures Fits(w.tracker, tab, Plan(Get(w.tracker.tabs, tab), phase))
  {
    if Has(w.tracker.tabs, tab) {
      var k := IndexOf(w.tracker.tabs, tab);
      assert Plan(Get(w.tracker.tabs, tab), phase) == [Emission(w.tracker.tabs[k].1, phase)];
    }
  }

  /** `plan` may be appended for a tab whose tracker entry, if any, is at least as new. */
  lemma EnqueueKeepsNavigations(w: Worker, tab: nat, plan: seq<Emission>)
    requires NavigationsSound(w) && Continues(w, tab, plan) && Fits(w.tracker, tab, plan)
    ensures NavigationsSound(Enqueued(w, tab, plan))
  {
    EnqueueKeepsAscent(w, tab, plan);
  }

  /** Closing the tab keeps the order even with the closed record's own emission at the end. */
  lemma RemovalKeepsNavigations(w: Worker, tab: nat)
    requires NavigationsSound(w)
    ensures NavigationsSound(Apply(w, TabRemoved(tab)))
  {
    var v := w.(tracker := ClosedNav(w.tracker, tab));
    var plan := Plan(Get(w.tracker.tabs, tab), AbandonedPage);
    CloseKeepsNavigations(w, tab);
    HeldRecordContinues(w, tab, AbandonedPage);
    assert Continues(v, tab, plan);
    NoneHas(v.tracker.tabs, tab);
    assert Fits(v.tracker, tab, plan);
    EnqueueKeepsNavigations(v, tab, plan);
  }

  ghost predicate OldOrNew(t: Tracker, tab: nat, entries: InsertionMap<nat, NavRecord>) {
    forall k | 0 <= k < |entries| ::
      || entries[k] == (tab, NewRecord(t, tab))
      || (entries[k].0 != tab && exists j :: 0 <= j < |t.tabs| && t.tabs[j] == entries[k])
  }

  lemma EnteredEntries(t: Tracker, tab: nat)
    requires DistinctKeys(t.tabs)
    ensures OldOrNew(t, tab, Entered(t, tab).tabs)
  {
    DeleteShifts(t.tabs, tab);
    DeleteKeepsDistinct(t.tabs, tab);
    NoneHas(Delete(t.tabs, tab), tab);
  }

  /** After a start the tracker holds old entries and the new record, whose id is the newest. */
  lemma StartedEntries(t: Tracker, tab: nat)
    requires Consistent(t)
    ensures Consistent(StartedNav(t, tab))
    ensures t.drawn <= NewRecord(t, tab).navigationId < StartedNav(t, tab).drawn
    ensures OldOrNew(t, tab, StartedNav(t, tab).tabs)
  {
    EnteredIsConsistent(t, tab);
    EnteredEntries(t, tab);
    TrimIsConsistent(Entered(t, tab));
    TrimCutsFront(Entered(t, tab));
  }

  lemma StartedTrackerKeepsBounds(w: Worker, tab: nat)
    requires NavigationsSound(w)
    ensures NavigationsSound(w.(tracker := StartedNav(w.tracker, tab)))
  {
    StartedEntries(w.tracker, tab);
  }

  lemma StartPlanContinues(w: Worker, tab: nat)
    requires NavigationsSound(w)
    ensures Continues(w, tab, StartPlan(w.tracker, tab))
    ensures forall q | 0 <= q < |StartPlan(w.tracker, tab)| ::
              && StartPlan(w.tracker, tab)[q].record.tabId == tab
              && StartPlan(w.tracker, tab)[q].record.navigationId <= NewRecord(w.tracker, tab).navigationId
  {
    HeldRecordContinues(w, tab, AbandonedPage);
  }

  lemma StartKeepsNavigations(w: Worker, tab: nat)
    requires NavigationsSound(w)
    ensures NavigationsSound(Apply(w, BeforeNavigate(tab, 0)))
  {
    var v := w.(tracker := StartedNav(w.tracker, tab));
    StartedTrackerKeepsBounds(w, tab);
    StartedEntries(w.tracker, tab);
    StartPlanContinues(w, tab);
    assert Continues(v, tab, StartPlan(w.tracker, tab));
    EnqueueKeepsNavigations(v, tab, StartPlan(w.tracker, tab));
  }

  lemma StepKeepsNavigations(w: Worker, s: Step)
    requires NavigationsSound(w) && Enabled(w, s)
    ensures NavigationsSound(Apply(w, s))
  {
    match s
    case BeforeNavigate(tab, frame) => if frame == 0 { StartKeepsNavigations(w, tab); }
    case Lifecycle(tab, frame, phase) => CaptureKeepsNavigations(w, tab, phase);
    case TabRemoved(tab) => RemovalKeepsNavigations(w, tab);
    case Vitals(tab) => CaptureKeepsNavigations(w, tab, SettledVitals);
    case _ =>
      StepExtends(w, s);
      SamePlansAscend(w.ops, Apply(w, s).ops);
  }

  lemma {:induction false} NavigationsAreSound(capacity: nat, steps: seq<Step>)
    ensures NavigationsSound(RunSteps(capacity, steps))
  {
    if steps == [] {
    } else {
      var w := RunSteps(capacity, steps[..|steps| - 1]);
      NavigationsAreSound(capacity, steps[..|steps| - 1]);
      if Enabled(w, steps[|steps| - 1]) {
        StepKeepsNavigations(w, steps[|steps| - 1]);
      }
    }
  }

  /** Of two posts for one tab the later never belongs to an older navigation; so once a new
      navigation has posted `started`, nothing of an earlier one is posted any more. */
  lemma NoStaleNavigation(capacity: nat, steps: seq<Step>, a: nat, b: nat)
    requires a < b < |RunSteps(capacity, steps).log|
    requires var log := RunSteps(capacity, steps).log; log[a].emission.record.tabId == log[b].emission.record.tabId
    ensures var log := RunSteps(capacity, steps).log;
            && log[a].emission.record.navigationId <= log[b].emission.record.navigationId
            && Before(log[a].op, log[a].position, log[b].op, log[b].position)
  {
    PostsFollowPlans(capacity, steps);
    NavigationsAreSound(capacity, steps);
  }
}
