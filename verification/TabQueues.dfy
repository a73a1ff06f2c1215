/** The service worker's event protocol: listeners capture a navigation record and chain an
    asynchronous operation onto the tab's promise; operations post numbered events. The steps
    of different tabs interleave freely. */
module TabQueues {
  import opened Wrappers
  import opened InsertionMaps
  import opened NavigationTracking

  const MAX_SAFE_INTEGER: nat := 0x1F_FFFF_FFFF_FFFF

  datatype EventPhase = Started | Committed | DomReady | Loaded | SettledVitals | Failed | AbandonedPage

  /** The phases of the four lifecycle listeners. */
  type LifecyclePhase = p: EventPhase | p in {Committed, DomReady, Loaded, Failed} witness Committed

  datatype Emission = Emission(record: NavRecord, phase: EventPhase)

  /** An operation waits for its prior promise, runs its emissions one by one, and its own
      promise settles some time after it has finished (section 27.2 of ECMA-262). */
  datatype Status = Pending | Running(next: nat) | Finished | Settled

  datatype Operation = Operation(tab: nat, prior: Option<nat>, plan: seq<Emission>, status: Status, tailCleared: bool)

  /** A message handed to the native port. `call` counts the calls of `nextSequence`. */
  datatype Post = Post(op: nat, position: nat, emission: Emission, call: nat, number: nat)

  datatype Worker = Worker(tracker: Tracker, sequence: nat, calls: nat, queues: map<nat, nat>,
                           ops: seq<Operation>, log: seq<Post>)

  /** Whether an emission reached the port, was swallowed inside `postNative`, or failed before it. */
  datatype Outcome = Posted | Swallowed | Thrown

  datatype Step =
    | BeforeNavigate(tab: nat, frame: nat)
    | Lifecycle(tab: nat, frame: nat, phase: LifecyclePhase)
    | TabRemoved(tab: nat)
    | Vitals(tab: nat)
    | StartOperation(op: nat)
    | Emit(op: nat, outcome: Outcome)
    | Reject(op: nat)
    | Finish(op: nat)
    | Settle(op: nat)
    | ClearTail(op: nat)

  function Initial(capacity: nat): Worker {
    Worker(Tracker(capacity, [], map[], 0), 0, 0, map[], [], [])
  }

  function NextSequence(sequence: nat): nat {
    if sequence + 1 <= MAX_SAFE_INTEGER then sequence + 1 else 1
  }

  function Plan(r: Option<NavRecord>, phase: EventPhase): seq<Emission> {
    if r.Some? then [Emission(r.value, phase)] else []
  }

  /** A new navigation first abandons the one it replaces. */
  function StartPlan(t: Tracker, tab: nat): seq<Emission> {
    Plan(Get(t.tabs, tab), AbandonedPage) + [Emission(NewRecord(t, tab), Started)]
  }

  function Enqueued(w: Worker, tab: nat, plan: seq<Emission>): Worker {
    var prior := if tab in w.queues then Some(w.queues[tab]) else None;
    w.(ops := w.ops + [Operation(tab, prior, plan, Pending, false)], queues := w.queues[tab := |w.ops|])
  }

  function WithStatus(w: Worker, op: nat, status: Status): Worker
    requires op < |w.ops|
  {
    w.(ops := w.ops[op := w.ops[op].(status := status)])
  }

  predicate Enabled(w: Worker, s: Step) {
    match s
    case BeforeNavigate(_, _) => true
    case Lifecycle(_, _, _) => true
    case TabRemoved(_) => true
    case Vitals(_) => true
    case StartOperation(i) =>
      && i < |w.ops| && w.ops[i].status == Pending
      && (w.ops[i].prior.Some? ==>
            w.ops[i].prior.value < |w.ops| && w.ops[w.ops[i].prior.value].status == Settled)
    case Emit(i, _) => i < |w.ops| && w.ops[i].status.Running? && w.ops[i].status.next < |w.ops[i].plan|
    case Reject(i) => i < |w.ops| && w.ops[i].status.Running? && w.ops[i].status.next < |w.ops[i].plan|
    case Finish(i) => i < |w.ops| && w.ops[i].status.Running? && w.ops[i].status.next == |w.ops[i].plan|
    case Settle(i) => i < |w.ops| && w.ops[i].status == Finished
    case ClearTail(i) => i < |w.ops| && w.ops[i].status == Settled && !w.ops[i].tailCleared
  }

  function Emitted(w: Worker, i: nat, outcome: Outcome): Worker
    requires Enabled(w, Emit(i, outcome))
  {
    var o := w.ops[i];
    var p := o.status.next;
    var number := NextSequence(w.sequence);
    var counted := WithStatus(w.(sequence := number, calls := w.calls + 1), i,
                              if outcome == Thrown then Finished else Running(p + 1));
    if outcome == Posted then
      counted.(log := w.log + [Post(i, p, o.plan[p], w.calls + 1, number)])
    else
      counted
  }

  function TailCleared(w: Worker, i: nat): Worker
    requires i < |w.ops|
  {
    var tab := w.ops[i].tab;
    w.(ops := w.ops[i := w.ops[i].(tailCleared := true)],
       queues := if tab in w.queues && w.queues[tab] == i then w.queues - {tab} else w.queues)
  }

  function Apply(w: Worker, s: Step): Worker
    requires Enabled(w, s)
  {
    match s
    case BeforeNavigate(tab, frame) =>
      if frame != 0 then w
      else Enqueued(w.(tracker := StartedNav(w.tracker, tab)), tab, StartPlan(w.tracker, tab))
    case Lifecycle(tab, frame, phase) =>
      if frame != 0 then w else Enqueued(w, tab, Plan(Get(w.tracker.tabs, tab), phase))
    case TabRemoved(tab) =>
      Enqueued(w.(tracker := ClosedNav(w.tracker, tab)), tab, Plan(Get(w.tracker.tabs, tab), AbandonedPage))
    case Vitals(tab) => Enqueued(w, tab, Plan(Get(w.tracker.tabs, tab), SettledVitals))
    case StartOperation(i) => WithStatus(w, i, Running(0))
    case Emit(i, outcome) => Emitted(w, i, outcome)
    case Reject(i) => WithStatus(w, i, Finished)
    case Finish(i) => WithStatus(w, i, Finished)
    case Settle(i) => WithStatus(w, i, Settled)
    case ClearTail(i) => TailCleared(w, i)
  }

  /** One scheduled step; a step that is not enabled does not happen. */
  function Exec(w: Worker, s: Step): Worker {
    if Enabled(w, s) then Apply(w, s) else w
  }

  /** Any sequence of steps is an interleaving. */
  function RunSteps(capacity: nat, steps: seq<Step>): Worker {
    if steps == [] then Initial(capacity)
    else Exec(RunSteps(capacity, steps[..|steps| - 1]), steps[|steps| - 1])
  }

  class ServiceWorker {
    const tracker: NavigationTracker
    var sequence: nat
    ghost var calls: nat
    var tabQueues: map<nat, nat>
    var promises: seq<Operation>
    ghost var log: seq<Post>

    ghost function State(): Worker
      reads this, tracker
    {
      Worker(tracker.State(), sequence, calls, tabQueues, promises, log)
    }

    ghost predicate Valid()
      reads this, tracker
    {
      tracker.Valid()
    }

    constructor (capacity: nat)
      ensures Valid() && fresh(tracker)
      ensures State() == Initial(capacity)
    {
      tracker := new NavigationTracker(capacity);
      sequence, tabQueues, promises, log := 0, map[], [], [];
      calls := 0;
    }

    method NextNumber() returns (number: nat)
      modifies this`sequence, this`calls
      ensures number == NextSequence(old(sequence)) && sequence == number && calls == old(calls) + 1
    {
      sequence := sequence + 1;
      calls := calls + 1;
      if sequence > MAX_SAFE_INTEGER {
        sequence := 1;
      }
      number := sequence;
    }

    method Enqueue(tabId: nat, plan: seq<Emission>)
      modifies this`tabQueues, this`promises
      ensures State() == Enqueued(old(State()), tabId, plan)
    {
      var prior := if tabId in tabQueues then Some(tabQueues[tabId]) else None;
      var next := |promises|;
      promises := promises + [Operation(tabId, prior, plan, Pending, false)];
      tabQueues := tabQueues[tabId := next];
    }

    method OnBeforeNavigate(tabId: nat, frameId: nat)
      requires Valid()
      modifies this, tracker
      ensures Valid()
      ensures State() == Apply(old(State()), BeforeNavigate(tabId, frameId))
    {
      if frameId != 0 {
        return;
      }
      var record, abandoned := tracker.Start(tabId);
      Enqueue(tabId, Plan(abandoned, AbandonedPage) + [Emission(record, Started)]);
    }

    method OnLifecycle(tabId: nat, frameId: nat, phase: LifecyclePhase)
      requires Valid()
      modifies this
      ensures Valid()
      ensures State() == Apply(old(State()), Lifecycle(tabId, frameId, phase))
    {
      if frameId != 0 {
        return;
      }
      Enqueue(tabId, Plan(Get(tracker.tabs, tabId), phase));
    }

    method OnRemoved(tabId: nat)
      requires Valid()
      modifies this, tracker
      ensures Valid()
      ensures State() == Apply(old(State()), TabRemoved(tabId))
    {
      var record := tracker.Close(tabId);
      Enqueue(tabId, Plan(record, AbandonedPage));
    }

    method OnVitals(tabId: nat)
      requires Valid()
      modifies this
      ensures Valid()
      ensures State() == Apply(old(State()), Vitals(tabId))
    {
      Enqueue(tabId, Plan(Get(tracker.tabs, tabId), SettledVitals));
    }

    /** The synchronous part of `emit`, from the sequence number to the port. */
    method EmitNext(op: nat, outcome: Outcome)
      requires Valid() && Enabled(State(), Emit(op, outcome))
      modifies this
      ensures Valid()
      ensures State() == Apply(old(State()), Emit(op, outcome))
    {
      var o := promises[op];
      var p := o.status.next;
      var number := NextNumber();
      if outcome == Thrown {
        promises := promises[op := o.(status := Finished)];
      } else {
        promises := promises[op := o.(status := Running(p + 1))];
        if outcome == Posted {
          log := log + [Post(op, p, o.plan[p], calls, number)];
        }
      }
    }

    /** The `finally` callback that drops a drained queue. */
    method OnSettled(op: nat)
      requires Valid() && Enabled(State(), ClearTail(op))
      modifies this`tabQueues, this`promises
      ensures Valid()
      ensures State() == Apply(old(State()), ClearTail(op))
    {
      var tabId := promises[op].tab;
      if tabId in tabQueues && tabQueues[tabId] == op {
        tabQueues := tabQueues - {tabId};
      }
      promises := promises[op := promises[op].(tailCleared := true)];
    }
  }
}
