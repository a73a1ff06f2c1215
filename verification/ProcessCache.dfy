/** The collector's cached list of the busiest processes and its staggered refresh. */
module ProcessCache {
  import opened Selection
  import opened Sequences
  import opened Wrappers

  datatype ProcessStats = ProcessStats(pid: U32, name: string, cpuUsage: real, memoryUsage: U64)

  const TOP := 10

  /** Ascending in this key is descending in CPU use. */
  function ByCpu(p: ProcessStats): real {
    -p.cpuUsage
  }

  function TopCount(n: nat): nat {
    Min(n, TOP)
  }

  /** Sort the whole table, then take ten: the CPU readings are the same, only ties may differ. */
  ghost predicate IsTop(table: seq<ProcessStats>, top: seq<ProcessStats>) {
    && |top| == TopCount(|table|)
    && Keys(top, ByCpu) == Sorted(Keys(table, ByCpu))[..|top|]
    && multiset(top) <= multiset(table)
  }

  function RefreshInterval(pressure: real): nat {
    if pressure >= 0.80 then 1 else if pressure >= 0.65 then 4 else 8
  }

  function WrappingIncrement(n: U32): U32 {
    if n == U32_MAX then 0 else n + 1
  }

  predicate LightRefreshes(count: U32, pressure: real) {
    count % RefreshInterval(pressure) == 0
  }

  const GRACE_CALLS: U32 := 3

  class SystemCollector {
    /** The process table as of the last refresh. */
    var processes: seq<ProcessStats>
    var lightCallCount: U32
    var cachedTopProcesses: seq<ProcessStats>

    ghost predicate Valid()
      reads this
    {
      cachedTopProcesses == [] || IsTop(processes, cachedTopProcesses)
    }

    constructor (seed: seq<ProcessStats>)
      ensures Valid() && processes == seed && lightCallCount == 0
    {
      processes, lightCallCount, cachedTopProcesses := seed, 0, [];
    }

    method RebuildTopProcessesCache()
      modifies this`cachedTopProcesses
      ensures IsTop(processes, cachedTopProcesses)
    {
      var table := processes;
      var found := new ProcessStats[|table|](i requires 0 <= i < |table| => table[i]);
      assert found[..] == table;
      if found.Length > TOP {
        SelectLeast(found, TOP, ByCpu);
      }
      var kept := found[..TopCount(found.Length)];
      var rest := found[TopCount(found.Length)..];
      assert found[..] == kept + rest;
      var top := SortByCpu(kept);
      FrontIsBusiest(found[..]);
      TopOfPartition(table, kept, rest, top);
      cachedTopProcesses := top;
    }

    static method SortByCpu(s: seq<ProcessStats>) returns (sorted: seq<ProcessStats>)
      ensures multiset(sorted) == multiset(s) && |sorted| == |s|
      ensures Ascending(Keys(sorted, ByCpu))
    {
      if s == [] {
        return s;
      }
      var a := new ProcessStats[|s|](i requires 0 <= i < |s| => s[i]);
      assert a[..] == s;
      SelectLeast(a, a.Length - 1, ByCpu);
      assert a[..a.Length - 1 + 1] == a[..];
      sorted := a[..];
    }

    /** `table` is what a refresh of the process table would find now. */
    method CollectSnapshotLight(pressure: real, table: seq<ProcessStats>) returns (top: seq<ProcessStats>)
      requires Valid()
      modifies this
      ensures Valid() && IsTop(processes, top)
      ensures processes == if LightRefreshes(old(lightCallCount), pressure) then table else old(processes)
      ensures lightCallCount == WrappingIncrement(old(lightCallCount))
    {
      var refreshed := LightRefreshes(lightCallCount, pressure);
      if refreshed {
        processes := table;
      }
      lightCallCount := WrappingIncrement(lightCallCount);
      if refreshed || cachedTopProcesses == [] {
        RebuildTopProcessesCache();
      }
      top := cachedTopProcesses;
    }

    method CollectSnapshot(table: seq<ProcessStats>) returns (top: seq<ProcessStats>)
      requires Valid()
      modifies this
      ensures Valid() && IsTop(processes, top)
      ensures lightCallCount == WrappingIncrement(old(lightCallCount))
      ensures processes == if lightCallCount <= GRACE_CALLS then old(processes) else table
    {
      lightCallCount := WrappingIncrement(lightCallCount);
      var refreshed := lightCallCount > GRACE_CALLS;
      if refreshed {
        processes := table;
      }
      if refreshed || cachedTopProcesses == [] {
        RebuildTopProcessesCache();
      }
      top := cachedTopProcesses;
    }

    method CollectSnapshotNoProcessRefresh() returns (top: seq<ProcessStats>)
      requires Valid()
      modifies this`cachedTopProcesses
      ensures Valid() && IsTop(processes, top)
    {
      if cachedTopProcesses == [] {
        RebuildTopProcessesCache();
      }
      top := cachedTopProcesses;
    }
  }

  // -------------------------------------------------------------------- agreement

  lemma KeysConcat(a: seq<ProcessStats>, b: seq<ProcessStats>)
    ensures Keys(a + b, ByCpu) == Keys(a, ByCpu) + Keys(b, ByCpu)
  {
  }

  lemma JoinAscending(a: seq<real>, b: seq<real>)
    requires Ascending(a) && Ascending(b)
    requires forall x, y | x in multiset(a) && y in multiset(b) :: x <= y
    ensures Ascending(a + b)
  {
    forall i, j | 0 <= i < j < |a + b| ensures (a + b)[i] <= (a + b)[j] {
      if i < |a| <= j {
        assert a[i] in multiset(a) && b[j - |a|] in multiset(b);
      }
    }
  }

  /** However a selection arranged the table, sorting its front gives what sorting everything gives. */
  lemma TopOfPartition(table: seq<ProcessStats>, kept: seq<ProcessStats>, rest: seq<ProcessStats>,
                       top: seq<ProcessStats>)
    requires multiset(kept + rest) == multiset(table) && |kept| == TopCount(|table|)
    requires forall x, y | 0 <= x < |kept| && 0 <= y < |rest| :: ByCpu(kept[x]) <= ByCpu(rest[y])
    requires multiset(top) == multiset(kept) && Ascending(Keys(top, ByCpu)) && |top| == |kept|
    ensures IsTop(table, top)
  {
    var kTop, kKept, kRest := Keys(top, ByCpu), Keys(kept, ByCpu), Keys(rest, ByCpu);
    KeysOfPermutation(top, kept, ByCpu);
    KeysOfPermutation(kept + rest, table, ByCpu);
    KeysConcat(kept, rest);
    var whole := kTop + Sorted(kRest);
    forall x, y | x in multiset(kTop) && y in multiset(Sorted(kRest)) ensures x <= y {
      assert x in multiset(kKept) && y in multiset(kRest);
      var i :| 0 <= i < |kKept| && kKept[i] == x;
      var j :| 0 <= j < |kRest| && kRest[j] == y;
      assert ByCpu(kept[i]) <= ByCpu(rest[j]);
    }
    JoinAscending(kTop, Sorted(kRest));
    assert multiset(whole) == multiset(kKept + kRest);
    SortedIsUnique(whole, Sorted(Keys(table, ByCpu)));
    assert multiset(kept) <= multiset(kept + rest);
  }

  lemma FrontIsBusiest(found: seq<ProcessStats>)
    requires |found| > TOP ==> PartitionedAt(Keys(found, ByCpu), TOP)
    ensures forall x, y | 0 <= x < TopCount(|found|) <= y < |found| :: ByCpu(found[x]) <= ByCpu(found[y])
  {
    var keys := Keys(found, ByCpu);
    forall x, y | 0 <= x < TopCount(|found|) <= y < |found| ensures ByCpu(found[x]) <= ByCpu(found[y]) {
      assert keys[x] <= keys[TOP] <= keys[y];
    }
  }

  /** The keys left over are the later part of the sorted keys. */
  lemma LeftOverKeys(table: seq<ProcessStats>, top: seq<ProcessStats>, rest: seq<ProcessStats>)
    requires IsTop(table, top) && multiset(top + rest) == multiset(table)
    ensures multiset(Keys(rest, ByCpu)) == multiset(Sorted(Keys(table, ByCpu))[|top|..])
  {
    var all, k := Sorted(Keys(table, ByCpu)), |top|;
    KeysOfPermutation(top + rest, table, ByCpu);
    KeysConcat(top, rest);
    assert all == Keys(top, ByCpu) + all[k..];
    assert multiset(Keys(rest, ByCpu)) == multiset(all) - multiset(Keys(top, ByCpu));
    assert multiset(all[k..]) == multiset(all) - multiset(Keys(top, ByCpu));
  }

  /** What being the top means: in descending order, and nothing left out is busier. */
  lemma TopIsBusiest(table: seq<ProcessStats>, top: seq<ProcessStats>, rest: seq<ProcessStats>)
    requires IsTop(table, top) && multiset(top + rest) == multiset(table)
    ensures forall i, j | 0 <= i < j < |top| :: top[j].cpuUsage <= top[i].cpuUsage
    ensures forall i, j | 0 <= i < |top| && 0 <= j < |rest| :: rest[j].cpuUsage <= top[i].cpuUsage
  {
    var all, k := Sorted(Keys(table, ByCpu)), |top|;
    var late := all[k..];
    var kRest := Keys(rest, ByCpu);
    assert forall i | 0 <= i < k :: all[i] == -top[i].cpuUsage by {
      assert forall i | 0 <= i < k :: Keys(top, ByCpu)[i] == all[i];
    }
    LeftOverKeys(table, top, rest);
    forall i, j | 0 <= i < k && 0 <= j < |rest| ensures rest[j].cpuUsage <= top[i].cpuUsage {
      assert kRest[j] in multiset(late);
      var x :| 0 <= x < |late| && late[x] == kRest[j];
      assert all[i] <= all[k + x];
    }
  }

  /** The ten busiest, or all of a shorter table, and nothing that is not in it. */
  lemma TopIsTen(table: seq<ProcessStats>, top: seq<ProcessStats>)
    requires IsTop(table, top)
    ensures |top| == if |table| < 10 then |table| else 10
    ensures multiset(top) <= multiset(table)
  {
  }

  // -------------------------------------------------------------------- staleness

  datatype Call = Light(pressure: real) | NoRefresh | Snapshot

  function CountAfter(count: U32, c: Call): U32 {
    if c.NoRefresh? then count else WrappingIncrement(count)
  }

  predicate Refreshes(count: U32, c: Call) {
    match c
    case Light(pressure) => LightRefreshes(count, pressure)
    case NoRefresh => false
    case Snapshot => WrappingIncrement(count) > GRACE_CALLS
  }

  /** Some call of the trace refreshes the process table. */
  predicate Refreshed(count: U32, trace: seq<Call>)
    decreases trace
  {
    trace != [] && (Refreshes(count, trace[0]) || Refreshed(CountAfter(count, trace[0]), trace[1..]))
  }

  function LightCalls(trace: seq<Call>): nat {
    if trace == [] then 0 else (if trace[0].Light? then 1 else 0) + LightCalls(trace[1..])
  }

  function Due(count: U32): nat {
    if count % 8 == 0 then 0 else 8 - count % 8
  }

  /** Counting modulo eight survives the wrap-around, since eight divides the range. */
  lemma CountUp(count: U32)
    ensures WrappingIncrement(count) % 8 == if count % 8 == 7 then 0 else count % 8 + 1
    ensures U32_MAX - 7 <= count ==> count % 8 == count - (U32_MAX - 7)
  {
  }

  /** The most light calls that can pass from `count` on before one must refresh. Without full
      snapshots that is the way to the next multiple of eight. A snapshot in its grace period can
      jump over one multiple, the zero at start-up or after a wrap-around. */
  function MostQuiet(count: U32, snapshots: bool): nat {
    Due(count) + if snapshots && (count == 0 || U32_MAX - 7 < count) then 7 else 0
  }

  lemma QuietCallPays(count: U32, c: Call, snapshots: bool)
    requires !Refreshes(count, c) && (snapshots || !c.Snapshot?)
    ensures MostQuiet(CountAfter(count, c), snapshots) + (if c.Light? then 1 else 0) <= MostQuiet(count, snapshots)
  {
    CountUp(count);
  }

  lemma {:induction false} RefreshIsDue(count: U32, trace: seq<Call>, snapshots: bool)
    requires snapshots || forall i | 0 <= i < |trace| :: !trace[i].Snapshot?
    requires MostQuiet(count, snapshots) < LightCalls(trace)
    ensures Refreshed(count, trace)
    decreases trace
  {
    if !Refreshes(count, trace[0]) {
      QuietCallPays(count, trace[0], snapshots);
      RefreshIsDue(CountAfter(count, trace[0]), trace[1..], snapshots);
    }
  }

  /** Under any pressures, from any counter value and so across its wrap-around, eight light calls
      contain a refresh, however many calls without refresh come between them. */
  lemma EightLightCallsRefresh(count: U32, trace: seq<Call>)
    requires forall i | 0 <= i < |trace| :: !trace[i].Snapshot?
    requires 8 <= LightCalls(trace)
    ensures Refreshed(count, trace)
  {
    RefreshIsDue(count, trace, false);
  }

  /** With full snapshots in between, fifteen light calls contain a refresh, and eight do unless
      the counter is about to wrap around. */
  lemma FifteenLightCallsRefresh(count: U32, trace: seq<Call>)
    requires 15 <= LightCalls(trace) || (8 <= LightCalls(trace) && count <= U32_MAX - 7)
    ensures Refreshed(count, trace)
  {
    RefreshIsDue(count, trace, true);
  }

  /** Every light call of the trace sees at least this pressure. */
  predicate PressedTo(trace: seq<Call>, bound: real) {
    forall i | 0 <= i < |trace| && trace[i].Light? :: bound <= trace[i].pressure
  }

  lemma CountUpByFour(count: U32)
    ensures WrappingIncrement(count) % 4 == if count % 4 == 3 then 0 else count % 4 + 1
    ensures count % 8 == 0 ==> count % 4 == 0
  {
  }

  lemma {:induction false} PressedRefreshIsDue(count: U32, trace: seq<Call>)
    requires PressedTo(trace, 0.65) && forall i | 0 <= i < |trace| :: !trace[i].Snapshot?
    requires (if count % 4 == 0 then 0 else 4 - count % 4) < LightCalls(trace)
    ensures Refreshed(count, trace)
    decreases trace
  {
    CountUpByFour(count);
    if !Refreshes(count, trace[0]) {
      PressedRefreshIsDue(CountAfter(count, trace[0]), trace[1..]);
    }
  }

  /** The pressure sets the pace: under any pressures from 0.65 on, four light calls contain a refresh. */
  lemma FourLightCallsRefresh(count: U32, trace: seq<Call>)
    requires PressedTo(trace, 0.65) && forall i | 0 <= i < |trace| :: !trace[i].Snapshot?
    requires 4 <= LightCalls(trace)
    ensures Refreshed(count, trace)
  {
    PressedRefreshIsDue(count, trace);
  }

  /** From 0.80 on the first light call refreshes, whatever comes before it. */
  lemma {:induction false} EveryLightCallRefreshes(count: U32, trace: seq<Call>)
    requires PressedTo(trace, 0.80) && 1 <= LightCalls(trace)
    ensures Refreshed(count, trace)
    decreases trace
  {
    if !trace[0].Light? {
      EveryLightCallRefreshes(CountAfter(count, trace[0]), trace[1..]);
    }
  }

  /** Below 0.80 three light calls need not. */
  lemma {:induction false} PaceIsTight(count: U32, low: real, n: nat)
    requires low < 0.80 && 0 < count % 4 && count % 4 + n <= 4
    ensures !Refreshed(count, Repeated(Light(low), n))
    decreases n
  {
    if n > 0 {
      CountUpByFour(count);
      assert Repeated(Light(low), n)[1..] == Repeated(Light(low), n - 1);
      if n > 1 {
        PaceIsTight(WrappingIncrement(count), low, n - 1);
      }
    }
  }

  /** Of the full snapshots of a new collector the first three rely on the table it started with, and
      the fourth refreshes it. */
  lemma {:induction false} SnapshotGrace(count: U32, n: nat)
    requires count <= 3
    ensures Refreshed(count, Repeated(Snapshot, n)) <==> 4 <= count + n
    decreases n
  {
    if n > 0 {
      assert Repeated(Snapshot, n)[1..] == Repeated(Snapshot, n - 1);
      if count < 3 {
        SnapshotGrace(count + 1, n - 1);
      }
    }
  }

  /** A trace of that many light calls under low pressure, with a snapshot only at zero. */
  function QuietTrace(count: U32, low: real, snapshots: bool): seq<Call>
    decreases MostQuiet(count, snapshots), if count == 0 then 1 else 0
  {
    CountUp(count);
    if snapshots && count == 0 then [Snapshot] + QuietTrace(1, low, snapshots)
    else if count % 8 == 0 then []
    else [Light(low)] + QuietTrace(WrappingIncrement(count), low, snapshots)
  }

  /** The bound is attained from every counter value: fourteen light calls without a refresh are
      possible, seven before a wrap-around and seven after a snapshot at zero. */
  lemma {:induction false} QuietTraceIsQuiet(count: U32, low: real, snapshots: bool)
    requires low < 0.65
    ensures var trace := QuietTrace(count, low, snapshots);
            LightCalls(trace) == MostQuiet(count, snapshots) && !Refreshed(count, trace)
    ensures MostQuiet(U32_MAX - 6, true) == 14 && MostQuiet(U32_MAX - 6, false) == 7
    decreases MostQuiet(count, snapshots), if count == 0 then 1 else 0
  {
    var trace := QuietTrace(count, low, snapshots);
    CountUp(count);
    if snapshots && count == 0 {
      QuietTraceIsQuiet(1, low, snapshots);
      assert trace[1..] == QuietTrace(1, low, snapshots);
    } else if count % 8 != 0 {
      QuietTraceIsQuiet(WrappingIncrement(count), low, snapshots);
      assert trace[1..] == QuietTrace(WrappingIncrement(count), low, snapshots);
    }
  }
}
