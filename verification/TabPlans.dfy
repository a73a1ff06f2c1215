/** What the service worker says about each navigation, over every interleaving: which records it
    plans and posts, and with which phase, against the plain tracker run on the same events. */
module TabPlans {
  import opened InsertionMaps
  import opened NavigationTracking
  import opened Sequences
  import opened TabQueues
  import opened TabQueueSafety
  import opened Wrappers

  // ------------------------------------------------------------------ planned records

  function PlansOf(ops: seq<Operation>): (p: seq<seq<Emission>>)
    ensures |p| == |ops| && forall i | 0 <= i < |ops| :: p[i] == ops[i].plan
  {
    seq(|ops|, i requires 0 <= i < |ops| => ops[i].plan)
  }

  function AllPlans(ops: seq<Operation>): seq<Emission> {
    Flatten(PlansOf(ops))
  }

  /** The records that are emitted with this phase, in order. */
  function With(emissions: seq<Emission>, phase: EventPhase): seq<NavRecord> {
    if emissions == [] then []
    else
      var last := emissions[|emissions| - 1];
      With(emissions[..|emissions| - 1], phase) + if last.phase == phase then [last.record] else []
  }

  lemma {:induction false} WithConcat(a: seq<Emission>, b: seq<Emission>, phase: EventPhase)
    ensures With(a + b, phase) == With(a, phase) + With(b, phase)
  {
    if b == [] {
      assert a + b == a;
    } else {
      assert (a + b)[..|a + b| - 1] == a + b[..|b| - 1];
      WithConcat(a, b[..|b| - 1], phase);
    }
  }

  /** The tracker's history of the same run. */
  function Tracked(capacity: nat, steps: seq<Step>): History {
    NavRun(capacity, NavEvents(steps))
  }

  function Leaving(): Departure -> bool {
    (d: Departure) => d.reason != Evicted
  }

  /** The records that were abandoned or closed, in order. */
  function Reported(h: History): seq<NavRecord> {
    Records(Filter(Leaving(), h.departed))
  }

  lemma ReportedGrows(d: seq<Departure>, r: seq<NavRecord>, reason: Reason)
    ensures Records(Filter(Leaving(), d + Departures(r, reason)))
         == Records(Filter(Leaving(), d)) + if reason == Evicted then [] else r
  {
    var more := Departures(r, reason);
    FilterConcat(Leaving(), d, more);
    if reason == Evicted {
      FilterNone(Leaving(), more);
    } else {
      FilterAll(Leaving(), more);
      RecordsOf(r, reason);
    }
    RecordsConcat(Filter(Leaving(), d), Filter(Leaving(), more));
  }

  lemma ReportedAfterStart(h: History, tab: nat)
    ensures Reported(NavStep(h, NavEvent.Start(tab))) == Reported(h) + Found(Get(h.tracker.tabs, tab))
    ensures NavStep(h, NavEvent.Start(tab)).started == h.started + [NewRecord(h.tracker, tab)]
  {
    var left := Departures(Found(Get(h.tracker.tabs, tab)), Abandoned);
    ReportedGrows(h.departed, Found(Get(h.tracker.tabs, tab)), Abandoned);
    ReportedGrows(h.departed + left, TrimmedAway(Entered(h.tracker, tab)), Evicted);
    var r := Records(Filter(Leaving(), h.departed + left));
    assert r + [] == r;
  }

  lemma ReportedAfterClose(h: History, tab: nat)
    ensures Reported(NavStep(h, NavEvent.Close(tab))) == Reported(h) + Found(Get(h.tracker.tabs, tab))
    ensures NavStep(h, NavEvent.Close(tab)).started == h.started
  {
    ReportedGrows(h.departed, Found(Get(h.tracker.tabs, tab)), Closed);
  }

  lemma PlanWith(r: Option<NavRecord>, planned: EventPhase, phase: EventPhase)
    ensures With(Plan(r, planned), phase) == if planned == phase then Found(r) else []
  {
    if r.Some? {
      assert Plan(r, planned)[..0] == [];
    }
  }

  lemma StartPlanWith(t: Tracker, tab: nat)
    ensures With(StartPlan(t, tab), Started) == [NewRecord(t, tab)]
    ensures With(StartPlan(t, tab), AbandonedPage) == Found(Get(t.tabs, tab))
  {
    var before, start := Plan(Get(t.tabs, tab), AbandonedPage), [Emission(NewRecord(t, tab), Started)];
    PlanWith(Get(t.tabs, tab), AbandonedPage, Started);
    PlanWith(Get(t.tabs, tab), AbandonedPage, AbandonedPage);
    assert start[..0] == [];
    WithConcat(before, start, Started);
    WithConcat(before, start, AbandonedPage);
  }

  lemma SamePlans(before: seq<Operation>, after: seq<Operation>)
    requires |after| == |before| && Extends(before, after)
    ensures AllPlans(after) == AllPlans(before)
  {
    assert PlansOf(after) == PlansOf(before);
  }

  /** What a listener plans, if the step is one that happens. */
  function Listened(w: Worker, s: Step): seq<Emission> {
    match s
    case BeforeNavigate(tab, frame) => if frame == 0 then StartPlan(w.tracker, tab) else []
    case Lifecycle(tab, frame, phase) => if frame == 0 then Plan(Get(w.tracker.tabs, tab), phase) else []
    case TabRemoved(tab) => Plan(Get(w.tracker.tabs, tab), AbandonedPage)
    case Vitals(tab) => Plan(Get(w.tracker.tabs, tab), SettledVitals)
    case _ => []
  }

  lemma PlansGrow(w: Worker, s: Step)
    ensures AllPlans(Exec(w, s).ops) == AllPlans(w.ops) + Listened(w, s)
  {
    var v := Exec(w, s);
    if |v.ops| > |w.ops| {
      assert PlansOf(v.ops) == PlansOf(w.ops) + [Listened(w, s)];
      FlattenAppend(PlansOf(w.ops), Listened(w, s));
    } else {
      if Enabled(w, s) { StepExtends(w, s); }
      SamePlans(w.ops, v.ops);
      assert AllPlans(w.ops) + [] == AllPlans(w.ops);
    }
  }

  lemma TrackedStep(capacity: nat, steps: seq<Step>, s: Step)
    ensures Tracked(capacity, steps + [s])
         == if s.BeforeNavigate? && s.frame == 0 then NavStep(Tracked(capacity, steps), NavEvent.Start(s.tab))
            else if s.TabRemoved? then NavStep(Tracked(capacity, steps), NavEvent.Close(s.tab))
            else Tracked(capacity, steps)
  {
    var e := NavEvents(steps);
    assert (steps + [s])[..|steps|] == steps;
    if s.BeforeNavigate? && s.frame == 0 {
      assert (e + [NavEvent.Start(s.tab)])[..|e|] == e;
    } else if s.TabRemoved? {
      assert (e + [NavEvent.Close(s.tab)])[..|e|] == e;
    } else {
      assert e + [] == e;
    }
  }

  /** What one step adds to the plans is what it adds to the tracker's history. */
  lemma ListenedIsTracked(w: Worker, h: History, s: Step)
    requires w.tracker == h.tracker
    ensures var after := if s.BeforeNavigate? && s.frame == 0 then NavStep(h, NavEvent.Start(s.tab))
                         else if s.TabRemoved? then NavStep(h, NavEvent.Close(s.tab)) else h;
            && after.started == h.started + With(Listened(w, s), Started)
            && Reported(after) == Reported(h) + With(Listened(w, s), AbandonedPage)
  {
    assert h.started + [] == h.started && Reported(h) + [] == Reported(h);
    match s
    case BeforeNavigate(tab, frame) =>
      if frame == 0 {
        ReportedAfterStart(h, tab);
        StartPlanWith(w.tracker, tab);
      }
    case TabRemoved(tab) =>
      ReportedAfterClose(h, tab);
      PlanWith(Get(w.tracker.tabs, tab), AbandonedPage, Started);
      PlanWith(Get(w.tracker.tabs, tab), AbandonedPage, AbandonedPage);
    case Lifecycle(tab, frame, phase) =>
      PlanWith(Get(w.tracker.tabs, tab), phase, Started);
      PlanWith(Get(w.tracker.tabs, tab), phase, AbandonedPage);
    case Vitals(tab) =>
      PlanWith(Get(w.tracker.tabs, tab), SettledVitals, Started);
      PlanWith(Get(w.tracker.tabs, tab), SettledVitals, AbandonedPage);
    case _ =>
  }

  /** In every interleaving the navigations planned as started are those that the tracker started, and
      those planned as abandoned are those that it abandoned or closed, each in order. */
  lemma {:induction false} PlansFollowTheTracker(capacity: nat, steps: seq<Step>)
    ensures var plans, h := AllPlans(RunSteps(capacity, steps).ops), Tracked(capacity, steps);
            With(plans, Started) == h.started && With(plans, AbandonedPage) == Reported(h)
  {
    if steps == [] {
      assert Records([]) == [];
    } else {
      var early, s := steps[..|steps| - 1], steps[|steps| - 1];
      var w, h := RunSteps(capacity, early), Tracked(capacity, early);
      PlansFollowTheTracker(capacity, early);
      WorkerRunsTheTracker(capacity, early);
      PlansGrow(w, s);
      WithConcat(AllPlans(w.ops), Listened(w, s), Started);
      WithConcat(AllPlans(w.ops), Listened(w, s), AbandonedPage);
      ListenedIsTracked(w, h, s);
      assert early + [s] == steps;
      TrackedStep(capacity, early, s);
    }
  }

  /** A started record is the last emission of its operation. */
  ghost predicate StartedLast(ops: seq<Operation>) {
    forall i, p | 0 <= i < |ops| && 0 <= p < |ops[i].plan| && ops[i].plan[p].phase == Started ::
      p == |ops[i].plan| - 1
  }

  lemma StepKeepsStartedLast(w: Worker, s: Step)
    requires StartedLast(w.ops)
    ensures StartedLast(Exec(w, s).ops)
  {
    if Enabled(w, s) { StepExtends(w, s); }
  }

  lemma {:induction false} StartedComesLast(capacity: nat, steps: seq<Step>)
    ensures StartedLast(RunSteps(capacity, steps).ops)
  {
    if steps != [] {
      StartedComesLast(capacity, steps[..|steps| - 1]);
      StepKeepsStartedLast(RunSteps(capacity, steps[..|steps| - 1]), steps[|steps| - 1]);
    }
  }

  // ------------------------------------------------------------- the other listeners

  /** One operation of `tab` has been added, and it emits the record that the tracker holds for the
      tab, with this phase, or nothing if it holds none. */
  ghost predicate PlansHeld(before: Worker, after: Worker, h: History, tab: nat, phase: EventPhase) {
    var tabs := h.tracker.tabs;
    && |after.ops| == |before.ops| + 1 && after.ops[..|before.ops|] == before.ops
    && after.ops[|before.ops|].tab == tab
    && (forall k | 0 <= k < |tabs| && tabs[k].0 == tab ::
          after.ops[|before.ops|].plan == [Emission(tabs[k].1, phase)])
    && ((forall k | 0 <= k < |tabs| :: tabs[k].0 != tab) ==> after.ops[|before.ops|].plan == [])
  }

  lemma CapturePlansHeld(w: Worker, v: Worker, h: History, tab: nat, phase: EventPhase)
    requires w.tracker == h.tracker && DistinctKeys(h.tracker.tabs)
    requires v.ops == Enqueued(w, tab, Plan(Get(w.tracker.tabs, tab), phase)).ops
    ensures PlansHeld(w, v, h, tab, phase)
  {
  }

  lemma SameTracker(capacity: nat, steps: seq<Step>)
    ensures RunSteps(capacity, steps).tracker == Tracked(capacity, steps).tracker
    ensures DistinctKeys(Tracked(capacity, steps).tracker.tabs)
  {
    WorkerRunsTheTracker(capacity, steps);
    TrackerIsSound(capacity, NavEvents(steps));
  }

  /** A top-frame lifecycle event plans the held record with its own phase. */
  lemma LifecyclePlansHeld(capacity: nat, steps: seq<Step>, tab: nat, phase: LifecyclePhase)
    ensures PlansHeld(RunSteps(capacity, steps), RunSteps(capacity, steps + [Lifecycle(tab, 0, phase)]),
                      Tracked(capacity, steps), tab, phase)
  {
    SameTracker(capacity, steps);
    RunAppend(capacity, steps, Lifecycle(tab, 0, phase));
    CapturePlansHeld(RunSteps(capacity, steps), RunSteps(capacity, steps + [Lifecycle(tab, 0, phase)]),
                     Tracked(capacity, steps), tab, phase);
  }

  /** A vitals message plans it as settled. */
  lemma VitalsPlanHeld(capacity: nat, steps: seq<Step>, tab: nat)
    ensures PlansHeld(RunSteps(capacity, steps), RunSteps(capacity, steps + [Vitals(tab)]),
                      Tracked(capacity, steps), tab, SettledVitals)
  {
    SameTracker(capacity, steps);
    RunAppend(capacity, steps, Vitals(tab));
    CapturePlansHeld(RunSteps(capacity, steps), RunSteps(capacity, steps + [Vitals(tab)]),
                     Tracked(capacity, steps), tab, SettledVitals);
  }

  /** A closed tab plans it as abandoned. */
  lemma RemovalPlansHeld(capacity: nat, steps: seq<Step>, tab: nat)
    ensures PlansHeld(RunSteps(capacity, steps), RunSteps(capacity, steps + [TabRemoved(tab)]),
                      Tracked(capacity, steps), tab, AbandonedPage)
  {
    SameTracker(capacity, steps);
    RunAppend(capacity, steps, TabRemoved(tab));
    CapturePlansHeld(RunSteps(capacity, steps), RunSteps(capacity, steps + [TabRemoved(tab)]),
                     Tracked(capacity, steps), tab, AbandonedPage);
  }

  /** Events of other frames change nothing. */
  lemma OtherFramesAreIgnored(capacity: nat, steps: seq<Step>, tab: nat, frame: nat, phase: LifecyclePhase)
    requires frame != 0
    ensures RunSteps(capacity, steps + [Lifecycle(tab, frame, phase)]) == RunSteps(capacity, steps)
    ensures RunSteps(capacity, steps + [BeforeNavigate(tab, frame)]) == RunSteps(capacity, steps)
  {
    RunAppend(capacity, steps, Lifecycle(tab, frame, phase));
    RunAppend(capacity, steps, BeforeNavigate(tab, frame));
  }

  // ------------------------------------------------------------- each navigation once

  lemma {:induction false} CountWith(emissions: seq<Emission>, phase: EventPhase, r: NavRecord)
    ensures multiset(With(emissions, phase))[r] == multiset(emissions)[Emission(r, phase)]
  {
    if emissions != [] {
      var early, last := emissions[..|emissions| - 1], emissions[|emissions| - 1];
      CountWith(early, phase, r);
      assert multiset(emissions) == multiset(early) + multiset{last} by {
        assert emissions == early + [last];
      }
      if last.phase == phase {
        AppendCounts(With(early, phase), last.record);
      } else {
        assert With(emissions, phase) == With(early, phase);
      }
    }
  }

  /** A record's departures, by reason. */
  lemma {:induction false} CountRecords(d: seq<Departure>, r: NavRecord)
    ensures multiset(Records(d))[r]
         == multiset(d)[Departure(r, Abandoned)] + multiset(d)[Departure(r, Closed)]
            + multiset(d)[Departure(r, Evicted)]
  {
    if d == [] {
      assert Records(d) == [];
    } else {
      var early, x := d[..|d| - 1], d[|d| - 1];
      CountRecords(early, r);
      assert multiset(d) == multiset(early) + multiset{x} by {
        assert d == early + [x];
      }
      assert multiset(Records(d)) == multiset(Records(early)) + multiset{x.record} by {
        assert Records(d) == Records(early) + [x.record];
      }
      match x.reason
      case Abandoned => assert x == Departure(x.record, Abandoned);
      case Closed => assert x == Departure(x.record, Closed);
      case Evicted => assert x == Departure(x.record, Evicted);
    }
  }

  /** The tracker has let go of `r` in one of these two ways. */
  predicate WasLeft(h: History, r: NavRecord) {
    Departure(r, Abandoned) in h.departed || Departure(r, Closed) in h.departed
  }

  /** How often a record is reported as having left, for a record that leaves at most once. */
  lemma ReportedAtMostOnce(h: History, r: NavRecord)
    requires multiset(Records(h.departed))[r] <= 1
    ensures multiset(Reported(h))[r] == if WasLeft(h, r) then 1 else 0
    ensures Departure(r, Evicted) in h.departed ==> !WasLeft(h, r)
  {
    var d := multiset(h.departed);
    CountRecords(h.departed, r);
    CountRecords(Filter(Leaving(), h.departed), r);
    FilterCounts(Leaving(), h.departed, Departure(r, Abandoned));
    FilterCounts(Leaving(), h.departed, Departure(r, Closed));
    FilterCounts(Leaving(), h.departed, Departure(r, Evicted));
    assert WasLeft(h, r) <==> d[Departure(r, Abandoned)] + d[Departure(r, Closed)] > 0;
    assert Departure(r, Evicted) in h.departed <==> d[Departure(r, Evicted)] > 0;
  }

  /** What is said about a navigation: started exactly once, and abandoned exactly once if it was
      abandoned or closed, and never while it is held or when it was evicted. */
  ghost predicate SaidOnce(emissions: seq<Emission>, h: History, r: NavRecord) {
    && multiset(emissions)[Emission(r, Started)] == 1
    && multiset(emissions)[Emission(r, AbandonedPage)] == (if WasLeft(h, r) then 1 else 0)
    && (r in Values(h.tracker.tabs) || Departure(r, Evicted) in h.departed ==> !WasLeft(h, r))
  }

  lemma StartedOnce(capacity: nat, events: seq<NavEvent>, r: NavRecord)
    requires r in NavRun(capacity, events).started
    ensures multiset(NavRun(capacity, events).started)[r] == 1
  {
    TrackerIsSound(capacity, events);
    DistinctOccurOnce(NavRun(capacity, events).started, r);
  }

  lemma HeldHasNotLeft(h: History, r: NavRecord)
    requires multiset(Values(h.tracker.tabs))[r] + multiset(Records(h.departed))[r] == 1
    ensures r in Values(h.tracker.tabs) ==> !WasLeft(h, r)
  {
    CountRecords(h.departed, r);
    var d := multiset(h.departed);
    assert WasLeft(h, r) ==> d[Departure(r, Abandoned)] + d[Departure(r, Closed)] > 0;
    assert r in Values(h.tracker.tabs) ==> multiset(Values(h.tracker.tabs))[r] > 0;
  }

  /** Each started navigation is planned accordingly. */
  lemma NavigationsArePlannedOnce(capacity: nat, steps: seq<Step>, r: NavRecord)
    requires r in Tracked(capacity, steps).started
    ensures SaidOnce(AllPlans(RunSteps(capacity, steps).ops), Tracked(capacity, steps), r)
  {
    var plans, h := AllPlans(RunSteps(capacity, steps).ops), Tracked(capacity, steps);
    PlansFollowTheTracker(capacity, steps);
    CountWith(plans, Started, r);
    CountWith(plans, AbandonedPage, r);
    StartedOnce(capacity, NavEvents(steps), r);
    LeavesExactlyOnce(capacity, NavEvents(steps), r);
    ReportedAtMostOnce(h, r);
    HeldHasNotLeft(h, r);
  }

  // ------------------------------------------------------------------ what is posted

  /** Nothing is rejected, swallowed or thrown. */
  predicate AllPosted(steps: seq<Step>) {
    forall k | 0 <= k < |steps| :: !steps[k].Reject? && (steps[k].Emit? ==> steps[k].outcome == Posted)
  }

  function Emissions(log: seq<Post>): (e: seq<Emission>)
    ensures |e| == |log|
  {
    seq(|log|, i requires 0 <= i < |log| => log[i].emission)
  }

  /** What an operation has emitted so far. */
  function Done(o: Operation): seq<Emission> {
    match o.status
    case Pending => []
    case Running(next) => if next <= |o.plan| then o.plan[..next] else o.plan
    case Finished => o.plan
    case Settled => o.plan
  }

  function DonesOf(ops: seq<Operation>): (d: seq<seq<Emission>>)
    ensures |d| == |ops| && forall i | 0 <= i < |ops| :: d[i] == Done(ops[i])
  {
    seq(|ops|, i requires 0 <= i < |ops| => Done(ops[i]))
  }

  function AllDone(ops: seq<Operation>): seq<Emission> {
    Flatten(DonesOf(ops))
  }

  lemma DoneUpdate(ops: seq<Operation>, i: nat, o: Operation, more: seq<Emission>)
    requires i < |ops| && Done(o) == Done(ops[i]) + more
    ensures multiset(AllDone(ops[i := o])) == multiset(AllDone(ops)) + multiset(more)
  {
    assert DonesOf(ops[i := o]) == DonesOf(ops)[i := DonesOf(ops)[i] + more];
    FlattenUpdate(DonesOf(ops), i, more);
  }

  lemma EmitPosts(w: Worker, i: nat)
    requires Enabled(w, Emit(i, Posted)) && multiset(Emissions(w.log)) == multiset(AllDone(w.ops))
    ensures var v := Emitted(w, i, Posted); multiset(Emissions(v.log)) == multiset(AllDone(v.ops))
  {
    var v, o := Emitted(w, i, Posted), w.ops[i];
    var e := o.plan[o.status.next];
    assert Done(v.ops[i]) == Done(o) + [e];
    DoneUpdate(w.ops, i, v.ops[i], [e]);
    assert v.ops == w.ops[i := v.ops[i]];
    assert Emissions(v.log) == Emissions(w.log) + [e];
  }

  /** A step that posts nothing either adds an operation that has done nothing yet, or changes one
      operation but not what it has done. */
  lemma QuietStep(w: Worker, s: Step)
    requires PositionsInRange(w) && Enabled(w, s) && !s.Emit? && !s.Reject?
    ensures Apply(w, s).log == w.log
    ensures DonesOf(Apply(w, s).ops) == DonesOf(w.ops) || DonesOf(Apply(w, s).ops) == DonesOf(w.ops) + [[]]
  {
    var v := Apply(w, s);
    if |v.ops| > |w.ops| {
      assert DonesOf(v.ops) == DonesOf(w.ops) + [[]];
    } else {
      forall i | 0 <= i < |w.ops| ensures Done(v.ops[i]) == Done(w.ops[i]) {
        assert w.ops[i].plan[..0] == [] && w.ops[i].plan[..|w.ops[i].plan|] == w.ops[i].plan;
      }
      assert DonesOf(v.ops) == DonesOf(w.ops);
    }
  }

  lemma StepPosts(w: Worker, s: Step)
    requires PositionsInRange(w) && Enabled(w, s) && !s.Reject? && (s.Emit? ==> s.outcome == Posted)
    requires multiset(Emissions(w.log)) == multiset(AllDone(w.ops))
    ensures multiset(Emissions(Apply(w, s).log)) == multiset(AllDone(Apply(w, s).ops))
  {
    if s.Emit? {
      EmitPosts(w, s.op);
    } else {
      QuietStep(w, s);
      FlattenAppend(DonesOf(w.ops), []);
      assert AllDone(w.ops) + [] == AllDone(w.ops);
    }
  }

  lemma {:induction false} LogIsWhatIsDone(capacity: nat, steps: seq<Step>)
    requires AllPosted(steps)
    ensures var w := RunSteps(capacity, steps); multiset(Emissions(w.log)) == multiset(AllDone(w.ops))
  {
    if steps == [] {
    } else {
      var early, s := steps[..|steps| - 1], steps[|steps| - 1];
      var w := RunSteps(capacity, early);
      LogIsWhatIsDone(capacity, early);
      PositionsAreInRange(capacity, early);
      if Enabled(w, s) {
        StepPosts(w, s);
      }
    }
  }

  lemma AllIsDone(ops: seq<Operation>)
    requires forall i | 0 <= i < |ops| :: ops[i].status == Settled
    ensures AllDone(ops) == AllPlans(ops)
  {
    assert DonesOf(ops) == PlansOf(ops);
  }

  /** In a run that posts all its emissions and has settled, each started navigation has been posted
      as started exactly once, and as abandoned exactly once if it was abandoned or closed. */
  lemma NavigationsArePostedOnce(capacity: nat, steps: seq<Step>, r: NavRecord)
    requires AllPosted(steps) && r in Tracked(capacity, steps).started
    requires forall i | 0 <= i < |RunSteps(capacity, steps).ops| :: RunSteps(capacity, steps).ops[i].status == Settled
    ensures SaidOnce(Emissions(RunSteps(capacity, steps).log), Tracked(capacity, steps), r)
  {
    LogIsWhatIsDone(capacity, steps);
    AllIsDone(RunSteps(capacity, steps).ops);
    NavigationsArePlannedOnce(capacity, steps, r);
  }
}
