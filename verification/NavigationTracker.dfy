/** The navigation tracker of the browser extension: one record for each open tab, evicted in
    order of latest start once there are more than `capacity`. */
module NavigationTracking {
  import opened Wrappers
  import opened InsertionMaps

  /** Opaque ids are fresh: the `k`-th draw of the random source yields the id `k`. */
  datatype NavRecord = NavRecord(tabId: nat, tabSessionId: nat, navigationId: nat)

  datatype Tracker = Tracker(capacity: nat, tabs: InsertionMap<nat, NavRecord>, sessions: map<nat, nat>, drawn: nat)

  function ClosedNav(t: Tracker, tabId: nat): Tracker {
    t.(tabs := Delete(t.tabs, tabId), sessions := t.sessions - {tabId})
  }

  function Trimmed(t: Tracker): Tracker
    decreases |t.tabs|
  {
    if |t.tabs| <= t.capacity then t else Trimmed(ClosedNav(t, t.tabs[0].0))
  }

  /** The records that the trimming drops, oldest first. */
  function TrimmedAway(t: Tracker): seq<NavRecord>
    decreases |t.tabs|
  {
    if |t.tabs| <= t.capacity then [] else [t.tabs[0].1] + TrimmedAway(ClosedNav(t, t.tabs[0].0))
  }

  function WithSession(t: Tracker, tabId: nat): (u: Tracker)
    ensures tabId in u.sessions
  {
    if tabId in t.sessions then t
    else t.(sessions := t.sessions[tabId := t.drawn], drawn := t.drawn + 1)
  }

  function NewRecord(t: Tracker, tabId: nat): NavRecord {
    var u := WithSession(t, tabId);
    NavRecord(tabId, u.sessions[tabId], u.drawn)
  }

  /** The new record is in, and nothing has been evicted yet. */
  function Entered(t: Tracker, tabId: nat): Tracker {
    var u := WithSession(t, tabId);
    u.(tabs := Delete(u.tabs, tabId) + [(tabId, NewRecord(t, tabId))], drawn := u.drawn + 1)
  }

  function StartedNav(t: Tracker, tabId: nat): Tracker {
    Trimmed(Entered(t, tabId))
  }

  // ------------------------------------------------------------------ consistency

  /** Both maps have the same keys. */
  ghost predicate SameKeys(t: Tracker) {
    DistinctKeys(t.tabs) && KeySet(t.tabs) == t.sessions.Keys
  }

  /** Every entry is filed under its own tab, with that tab's session. */
  ghost predicate Filed(t: Tracker) {
    forall k | 0 <= k < |t.tabs| ::
      && t.tabs[k].1.tabId == t.tabs[k].0
      && t.tabs[k].0 in t.sessions
      && t.tabs[k].1.tabSessionId == t.sessions[t.tabs[k].0]
  }

  /** Iteration runs from the least to the most recently started navigation. */
  ghost predicate InStartOrder(t: Tracker) {
    && (forall k | 0 <= k < |t.tabs| :: t.tabs[k].1.navigationId < t.drawn)
    && (forall j, k | 0 <= j < k < |t.tabs| :: t.tabs[j].1.navigationId < t.tabs[k].1.navigationId)
  }

  ghost predicate Consistent(t: Tracker) {
    SameKeys(t) && Filed(t) && InStartOrder(t)
  }

  lemma CloseKeepsKeys(t: Tracker, tabId: nat)
    requires SameKeys(t)
    ensures SameKeys(ClosedNav(t, tabId))
  {
    DeleteKeepsDistinct(t.tabs, tabId);
    DeleteKeys(t.tabs, tabId);
  }

  lemma CloseKeepsFiling(t: Tracker, tabId: nat)
    requires DistinctKeys(t.tabs) && Filed(t)
    ensures Filed(ClosedNav(t, tabId))
  {
    DeleteShifts(t.tabs, tabId);
    DeleteKeepsDistinct(t.tabs, tabId);
    NoneHas(Delete(t.tabs, tabId), tabId);
  }

  lemma NoneHas<V>(m: InsertionMap<nat, V>, k: nat)
    requires !Has(m, k)
    ensures forall j | 0 <= j < |m| :: m[j].0 != k
  {
  }

  lemma CloseKeepsOrder(t: Tracker, tabId: nat)
    requires InStartOrder(t)
    ensures InStartOrder(ClosedNav(t, tabId))
  {
    DeleteShifts(t.tabs, tabId);
  }

  lemma CloseIsConsistent(t: Tracker, tabId: nat)
    requires Consistent(t)
    ensures Consistent(ClosedNav(t, tabId))
  {
    CloseKeepsKeys(t, tabId);
    CloseKeepsFiling(t, tabId);
    CloseKeepsOrder(t, tabId);
  }

  lemma EnteredKeepsKeys(t: Tracker, tabId: nat)
    requires SameKeys(t)
    ensures SameKeys(Entered(t, tabId))
    ensures |Entered(t, tabId).tabs| == |t.tabs| + if tabId in t.sessions then 0 else 1
  {
    CloseKeepsKeys(t, tabId);
    DeleteKeepsDistinct(t.tabs, tabId);
    DeleteShifts(t.tabs, tabId);
    AppendKeys(Delete(t.tabs, tabId), tabId, NewRecord(t, tabId));
    HasIsMembership(t.tabs, tabId);
  }

  lemma EnteredKeepsFiling(t: Tracker, tabId: nat)
    requires DistinctKeys(t.tabs) && Filed(t)
    ensures Filed(Entered(t, tabId))
  {
    CloseKeepsFiling(t, tabId);
  }

  lemma EnteredKeepsOrder(t: Tracker, tabId: nat)
    requires InStartOrder(t)
    ensures InStartOrder(Entered(t, tabId))
  {
    CloseKeepsOrder(t, tabId);
  }

  lemma EnteredIsConsistent(t: Tracker, tabId: nat)
    requires Consistent(t)
    ensures Consistent(Entered(t, tabId))
  {
    EnteredKeepsKeys(t, tabId);
    EnteredKeepsFiling(t, tabId);
    EnteredKeepsOrder(t, tabId);
  }

  lemma {:induction false} TrimIsConsistent(t: Tracker)
    requires Consistent(t)
    ensures Consistent(Trimmed(t)) && |Trimmed(t).tabs| <= t.capacity
    ensures Trimmed(t).drawn == t.drawn && Trimmed(t).capacity == t.capacity
    decreases |t.tabs|
  {
    if |t.tabs| > t.capacity {
      CloseIsConsistent(t, t.tabs[0].0);
      TrimIsConsistent(ClosedNav(t, t.tabs[0].0));
    }
  }

  lemma StartedIsConsistent(t: Tracker, tabId: nat)
    requires Consistent(t)
    ensures Consistent(StartedNav(t, tabId)) && |StartedNav(t, tabId).tabs| <= t.capacity
  {
    EnteredIsConsistent(t, tabId);
    TrimIsConsistent(Entered(t, tabId));
  }

  function Excess(t: Tracker): (n: nat)
    ensures n <= |t.tabs|
  {
    if |t.tabs| <= t.capacity then 0 else |t.tabs| - t.capacity
  }

  lemma SlicesOfTail<T>(s: seq<T>, k: nat)
    requires 0 < k <= |s|
    ensures s[1..][k - 1..] == s[k..]
    ensures [s[0]] + s[1..][..k - 1] == s[..k]
  {
  }

  /** Closing the first tab takes the first entry off. */
  lemma CloseFirst(t: Tracker)
    requires t.capacity < |t.tabs|
    ensures var u := ClosedNav(t, t.tabs[0].0);
            && u.tabs == t.tabs[1..] && u.capacity == t.capacity && Excess(u) == Excess(t) - 1
            && u.tabs[Excess(u)..] == t.tabs[Excess(t)..]
            && [t.tabs[0]] + u.tabs[..Excess(u)] == t.tabs[..Excess(t)]
  {
    assert ClosedNav(t, t.tabs[0].0).tabs == t.tabs[1..];
    SlicesOfTail(t.tabs, Excess(t));
  }

  /** Trimming cuts the oldest entries off the front. */
  lemma {:induction false} TrimCutsFront(t: Tracker)
    ensures Trimmed(t).tabs == t.tabs[Excess(t)..]
    decreases |t.tabs|
  {
    if |t.tabs| > t.capacity {
      CloseFirst(t);
      TrimCutsFront(ClosedNav(t, t.tabs[0].0));
    }
  }

  lemma {:induction false} TrimDropsFront(t: Tracker)
    ensures TrimmedAway(t) == Values(t.tabs[..Excess(t)])
    decreases |t.tabs|
  {
    if |t.tabs| > t.capacity {
      var u := ClosedNav(t, t.tabs[0].0);
      CloseFirst(t);
      TrimDropsFront(u);
      ValuesConcat([t.tabs[0]], u.tabs[..Excess(u)]);
    }
  }

  lemma {:induction false} TrimKeepsSessions(t: Tracker)
    ensures forall k | k in Trimmed(t).sessions :: k in t.sessions && Trimmed(t).sessions[k] == t.sessions[k]
    ensures Trimmed(t).drawn == t.drawn
    decreases |t.tabs|
  {
    if |t.tabs| > t.capacity {
      TrimKeepsSessions(ClosedNav(t, t.tabs[0].0));
    }
  }

  // ------------------------------------------------------------------ the tracker

  class NavigationTracker {
    const capacity: nat
    var tabs: InsertionMap<nat, NavRecord>
    var tabSessions: map<nat, nat>
    var drawn: nat

    ghost function State(): Tracker
      reads this
    {
      Tracker(capacity, tabs, tabSessions, drawn)
    }

    /** Both maps agree and are within capacity, and iteration runs in the order of latest start. */
    ghost predicate Valid()
      reads this
    {
      Consistent(State()) && |tabs| <= capacity
    }

    constructor (capacity: nat)
      ensures Valid()
      ensures State() == Tracker(capacity, [], map[], 0)
    {
      this.capacity := capacity;
      tabs, tabSessions, drawn := [], map[], 0;
    }

    method Random() returns (id: nat)
      modifies this`drawn
      ensures id == old(drawn) && drawn == old(drawn) + 1
    {
      id, drawn := drawn, drawn + 1;
    }

    method Start(tabId: nat) returns (record: NavRecord, abandoned: Option<NavRecord>)
      requires Valid()
      modifies this
      ensures Valid()
      ensures State() == StartedNav(old(State()), tabId)
      ensures record == NewRecord(old(State()), tabId)
      ensures abandoned == Get(old(tabs), tabId)
    {
      abandoned := Get(tabs, tabId);
      record := Enter(tabId);
      EvictExcess();
      StartedIsConsistent(old(State()), tabId);
    }

    /** The start up to the eviction loop. */
    method Enter(tabId: nat) returns (record: NavRecord)
      requires DistinctKeys(tabs)
      modifies this
      ensures State() == Entered(old(State()), tabId)
      ensures record == NewRecord(old(State()), tabId)
    {
      if tabId !in tabSessions {
        var session := Random();
        tabSessions := tabSessions[tabId := session];
      }
      DeleteKeepsDistinct(tabs, tabId);
      tabs := Delete(tabs, tabId);
      var navigationId := Random();
      record := NavRecord(tabId, tabSessions[tabId], navigationId);
      tabs := Set(tabs, tabId, record);
    }

    method EvictExcess()
      modifies this`tabs, this`tabSessions
      ensures State() == Trimmed(old(State()))
    {
      while |tabs| > capacity
        invariant Trimmed(State()) == Trimmed(old(State()))
      {
        var oldest := tabs[0].0;
        tabs := Delete(tabs, oldest);
        tabSessions := tabSessions - {oldest};
      }
    }

    method Close(tabId: nat) returns (record: Option<NavRecord>)
      requires Valid()
      modifies this
      ensures Valid()
      ensures State() == ClosedNav(old(State()), tabId)
      ensures record == Get(old(tabs), tabId)
    {
      CloseIsConsistent(State(), tabId);
      DeleteShifts(tabs, tabId);
      record := Get(tabs, tabId);
      tabs := Delete(tabs, tabId);
      tabSessions := tabSessions - {tabId};
    }
  }

  // ------------------------------------------------------------------ whole runs

  datatype NavEvent = Start(tabId: nat) | Close(tabId: nat)

  datatype Reason = Abandoned | Closed | Evicted

  datatype Departure = Departure(record: NavRecord, reason: Reason)

  /** A tracker with everything that ever entered it and everything that left. */
  datatype History = History(tracker: Tracker, started: seq<NavRecord>, departed: seq<Departure>)

  function Departures(records: seq<NavRecord>, reason: Reason): (d: seq<Departure>)
    ensures |d| == |records|
  {
    seq(|records|, i requires 0 <= i < |records| => Departure(records[i], reason))
  }

  function Found(r: Option<NavRecord>): seq<NavRecord> {
    if r.Some? then [r.value] else []
  }

  function NavStep(h: History, e: NavEvent): History {
    var t := h.tracker;
    match e
    case Start(tabId) =>
      History(StartedNav(t, tabId), h.started + [NewRecord(t, tabId)],
              h.departed + Departures(Found(Get(t.tabs, tabId)), Abandoned)
                         + Departures(TrimmedAway(Entered(t, tabId)), Evicted))
    case Close(tabId) =>
      History(ClosedNav(t, tabId), h.started, h.departed + Departures(Found(Get(t.tabs, tabId)), Closed))
  }

  function NavRun(capacity: nat, events: seq<NavEvent>): History {
    if events == [] then History(Tracker(capacity, [], map[], 0), [], [])
    else NavStep(NavRun(capacity, events[..|events| - 1]), events[|events| - 1])
  }

  /** Every navigation that has started is in the tracker or has left it, never both, never twice. */
  ghost predicate Conserved(h: History) {
    multiset(h.started) == multiset(Values(h.tracker.tabs)) + multiset(Records(h.departed))
  }

  function Records(d: seq<Departure>): (r: seq<NavRecord>)
    ensures |r| == |d|
  {
    seq(|d|, i requires 0 <= i < |d| => d[i].record)
  }

  /** Navigations start in the order of their ids, and the ids of sessions are older still. */
  ghost predicate StartedInOrder(h: History) {
    && (forall k | 0 <= k < |h.started| ::
          h.started[k].tabSessionId < h.started[k].navigationId < h.tracker.drawn)
    && (forall j, k | 0 <= j < k < |h.started| :: h.started[j].navigationId < h.started[k].navigationId)
    && (forall t | t in h.tracker.sessions :: h.tracker.sessions[t] < h.tracker.drawn)
  }

  /** The record held for a tab is that of the tab's latest start. */
  ghost predicate HoldsLatest(h: History) {
    forall i, k | 0 <= i < |h.tracker.tabs| && 0 <= k < |h.started|
                  && h.started[k].tabId == h.tracker.tabs[i].1.tabId ::
      h.started[k].navigationId <= h.tracker.tabs[i].1.navigationId
  }

  ghost predicate Sound(h: History, capacity: nat) {
    && h.tracker.capacity == capacity
    && Consistent(h.tracker)
    && |h.tracker.tabs| <= capacity
    && StartedInOrder(h)
    && HoldsLatest(h)
    && Conserved(h)
  }

  lemma RecordsConcat(a: seq<Departure>, b: seq<Departure>)
    ensures Records(a + b) == Records(a) + Records(b)
  {
  }

  lemma RecordsOf(r: seq<NavRecord>, reason: Reason)
    ensures Records(Departures(r, reason)) == r
  {
  }

  lemma CloseConserves(h: History, tabId: nat)
    requires Conserved(h)
    ensures Conserved(NavStep(h, Close(tabId)))
  {
    var t := h.tracker;
    DeleteValues(t.tabs, tabId);
    RecordsConcat(h.departed, Departures(Found(Get(t.tabs, tabId)), Closed));
    RecordsOf(Found(Get(t.tabs, tabId)), Closed);
  }

  lemma EnteredValues(t: Tracker, tabId: nat)
    ensures multiset(Values(Entered(t, tabId).tabs)) + multiset(Found(Get(t.tabs, tabId)))
         == multiset(Values(t.tabs)) + multiset{NewRecord(t, tabId)}
  {
    var d, r := Delete(t.tabs, tabId), NewRecord(t, tabId);
    DeleteValues(t.tabs, tabId);
    ValuesConcat(d, [(tabId, r)]);
    assert Values([(tabId, r)]) == [r];
    assert multiset(Values(d) + [r]) == multiset(Values(d)) + multiset{r};
  }

  lemma TrimValues(t: Tracker)
    ensures multiset(Values(t.tabs)) == multiset(TrimmedAway(t)) + multiset(Values(Trimmed(t).tabs))
  {
    var gone, kept := t.tabs[..Excess(t)], t.tabs[Excess(t)..];
    assert Trimmed(t).tabs == kept by { TrimCutsFront(t); }
    assert TrimmedAway(t) == Values(gone) by { TrimDropsFront(t); }
    assert t.tabs == gone + kept;
    ValuesConcat(gone, kept);
  }

  lemma RecordsGrow(d: seq<Departure>, left: seq<NavRecord>, a: Reason, gone: seq<NavRecord>, b: Reason)
    ensures Records(d + Departures(left, a) + Departures(gone, b)) == Records(d) + left + gone
  {
    RecordsOf(left, a);
    RecordsOf(gone, b);
    RecordsConcat(d, Departures(left, a));
    RecordsConcat(d + Departures(left, a), Departures(gone, b));
  }

  lemma StartConserves(h: History, tabId: nat)
    requires Conserved(h)
    ensures Conserved(NavStep(h, Start(tabId)))
  {
    var t := h.tracker;
    EnteredValues(t, tabId);
    TrimValues(Entered(t, tabId));
    var left, gone := Found(Get(t.tabs, tabId)), TrimmedAway(Entered(t, tabId));
    RecordsGrow(h.departed, left, Abandoned, gone, Evicted);
    Balance(multiset(h.started), multiset(Values(t.tabs)), multiset(Records(h.departed)), NewRecord(t, tabId),
            multiset(Values(Entered(t, tabId).tabs)), multiset(left), multiset(gone),
            multiset(Values(StartedNav(t, tabId).tabs)));
  }

  lemma Balance<T>(started: multiset<T>, held: multiset<T>, departed: multiset<T>, r: T,
                   entered: multiset<T>, left: multiset<T>, gone: multiset<T>, kept: multiset<T>)
    requires started == held + departed
    requires entered + left == held + multiset{r}
    requires entered == gone + kept
    ensures started + multiset{r} == kept + (departed + left + gone)
  {
    calc {
      started + multiset{r};
      (held + multiset{r}) + departed;
      (gone + kept + left) + departed;
      kept + (departed + left + gone);
    }
  }

  lemma CloseKeepsLatest(h: History, tabId: nat)
    requires HoldsLatest(h)
    ensures HoldsLatest(NavStep(h, Close(tabId)))
  {
    var d, i := Delete(h.tracker.tabs, tabId), IndexOf(h.tracker.tabs, tabId);
    assert forall k | 0 <= k < |d| :: d[k] == h.tracker.tabs[if k < i then k else k + 1];
  }

  lemma EnteredHoldsLatest(h: History, tabId: nat)
    requires HoldsLatest(h) && StartedInOrder(h) && Filed(h.tracker) && DistinctKeys(h.tracker.tabs)
    ensures HoldsLatest(History(Entered(h.tracker, tabId), h.started + [NewRecord(h.tracker, tabId)], h.departed))
  {
    var d := Delete(h.tracker.tabs, tabId);
    DeleteShifts(h.tracker.tabs, tabId);
    DeleteKeepsDistinct(h.tracker.tabs, tabId);
    NoneHas(d, tabId);
    CloseKeepsFiling(h.tracker, tabId);
  }

  lemma StartKeepsLatest(h: History, tabId: nat)
    requires HoldsLatest(h) && StartedInOrder(h) && Consistent(h.tracker)
    ensures HoldsLatest(NavStep(h, Start(tabId)))
  {
    var entered := History(Entered(h.tracker, tabId), h.started + [NewRecord(h.tracker, tabId)], h.departed);
    EnteredHoldsLatest(h, tabId);
    TrimHoldsLatest(entered, NavStep(h, Start(tabId)));
  }

  lemma TrimHoldsLatest(h: History, after: History)
    requires HoldsLatest(h) && after.started == h.started && after.tracker == Trimmed(h.tracker)
    ensures HoldsLatest(after)
  {
    TrimCutsFront(h.tracker);
  }

  /** Ids only grow: the new record's are the newest, and all sessions stay older than the next draw. */
  lemma NewRecordIsNewest(t: Tracker, tabId: nat)
    requires forall k | k in t.sessions :: t.sessions[k] < t.drawn
    ensures var r := NewRecord(t, tabId);
            r.tabSessionId < r.navigationId < StartedNav(t, tabId).drawn && t.drawn <= r.navigationId
    ensures forall k | k in StartedNav(t, tabId).sessions ::
              StartedNav(t, tabId).sessions[k] < StartedNav(t, tabId).drawn
  {
    TrimKeepsSessions(Entered(t, tabId));
  }

  lemma StartKeepsStartOrder(h: History, tabId: nat)
    requires StartedInOrder(h)
    ensures StartedInOrder(NavStep(h, Start(tabId)))
  {
    NewRecordIsNewest(h.tracker, tabId);
    var after := NavStep(h, Start(tabId));
    assert after.started == h.started + [NewRecord(h.tracker, tabId)];
    assert after.tracker == StartedNav(h.tracker, tabId);
  }

  /** The least-recently-used contract, over every run of starts and closes. */
  lemma {:induction false} TrackerIsSound(capacity: nat, events: seq<NavEvent>)
    ensures Sound(NavRun(capacity, events), capacity)
  {
    if events == [] {
    } else {
      var h := NavRun(capacity, events[..|events| - 1]);
      var tabId := events[|events| - 1].tabId;
      TrackerIsSound(capacity, events[..|events| - 1]);
      match events[|events| - 1]
      case Start(_) =>
        EnteredIsConsistent(h.tracker, tabId);
        TrimIsConsistent(Entered(h.tracker, tabId));
        StartKeepsLatest(h, tabId);
        StartKeepsStartOrder(h, tabId);
        StartConserves(h, tabId);
      case Close(_) =>
        CloseIsConsistent(h.tracker, tabId);
        CloseKeepsLatest(h, tabId);
        CloseConserves(h, tabId);
    }
  }

  lemma {:induction false} DistinctOccurOnce(s: seq<NavRecord>, r: NavRecord)
    requires forall j, k | 0 <= j < k < |s| :: s[j].navigationId < s[k].navigationId
    requires r in s
    ensures multiset(s)[r] == 1
  {
    var n := |s| - 1;
    assert s == s[..n] + [s[n]];
    if r in s[..n] {
      DistinctOccurOnce(s[..n], r);
    }
  }

  /** Each navigation leaves at most once: it is either still held or departed exactly once. */
  lemma LeavesExactlyOnce(capacity: nat, events: seq<NavEvent>, r: NavRecord)
    requires r in NavRun(capacity, events).started
    ensures var h := NavRun(capacity, events);
            multiset(Values(h.tracker.tabs))[r] + multiset(Records(h.departed))[r] == 1
  {
    TrackerIsSound(capacity, events);
    DistinctOccurOnce(NavRun(capacity, events).started, r);
  }

  lemma TrimmedAwayAreOldest(t: Tracker)
    requires InStartOrder(t)
    ensures forall i, k | 0 <= i < |TrimmedAway(t)| && 0 <= k < |Trimmed(t).tabs| ::
              TrimmedAway(t)[i].navigationId < Trimmed(t).tabs[k].1.navigationId
  {
    TrimCutsFront(t);
    TrimDropsFront(t);
  }

  /** A start evicts at most one tab, only when a new tab meets a full tracker, and always the
      tab whose latest start is the oldest. */
  lemma EvictsLeastRecent(t: Tracker, tabId: nat)
    requires Consistent(t) && |t.tabs| <= t.capacity
    ensures |TrimmedAway(Entered(t, tabId))| == if tabId !in t.sessions && |t.tabs| == t.capacity then 1 else 0
    ensures forall i, k | 0 <= i < |TrimmedAway(Entered(t, tabId))| && 0 <= k < |StartedNav(t, tabId).tabs| ::
              TrimmedAway(Entered(t, tabId))[i].navigationId < StartedNav(t, tabId).tabs[k].1.navigationId
  {
    EnteredKeepsKeys(t, tabId);
    EnteredKeepsOrder(t, tabId);
    TrimDropsFront(Entered(t, tabId));
    TrimmedAwayAreOldest(Entered(t, tabId));
  }

  /** One event never changes the session of a tab that stays, and a returning tab gets an id
      that no earlier session or navigation ever had. */
  lemma SessionIsKept(h: History, e: NavEvent, tabId: nat)
    requires tabId in NavStep(h, e).tracker.sessions
    ensures var after := NavStep(h, e).tracker.sessions;
            if tabId in h.tracker.sessions then after[tabId] == h.tracker.sessions[tabId]
            else e == Start(tabId) && after[tabId] == h.tracker.drawn
  {
    if e.Start? {
      TrimKeepsSessions(Entered(h.tracker, e.tabId));
    }
  }

  /** The tab is tracked after `a` and after every further event of `b`. */
  ghost predicate TrackedThroughout(capacity: nat, a: seq<NavEvent>, b: seq<NavEvent>, tabId: nat)
    decreases |b|
  {
    && tabId in NavRun(capacity, a + b).tracker.sessions
    && (b != [] ==> TrackedThroughout(capacity, a, b[..|b| - 1], tabId))
  }

  /** A tab keeps one session id for as long as it is tracked without interruption. */
  lemma {:induction false} SessionIsConstant(capacity: nat, a: seq<NavEvent>, b: seq<NavEvent>, tabId: nat)
    requires TrackedThroughout(capacity, a, b, tabId)
    ensures tabId in NavRun(capacity, a).tracker.sessions
    ensures NavRun(capacity, a + b).tracker.sessions[tabId] == NavRun(capacity, a).tracker.sessions[tabId]
    decreases |b|
  {
    if b == [] {
      assert a + b == a;
    } else {
      var c := b[..|b| - 1];
      assert (a + b)[..|a + b| - 1] == a + c;
      SessionIsConstant(capacity, a, c, tabId);
      SessionIsKept(NavRun(capacity, a + c), b[|b| - 1], tabId);
    }
  }
}
