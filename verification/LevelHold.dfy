/** One hysteresis lane of the overhead governor: it rises at once, and falls one step
    after enough consecutive lower requests or after a wall-clock limit. */
module LevelHolds {
  import opened Sequences
  import opened Wrappers

  datatype Level = Nominal | Guarded | Constrained {
    function Rank(): nat {
      match this
      case Nominal => 0
      case Guarded => 1
      case Constrained => 2
    }

    function OneStepDown(): Level {
      match this
      case Constrained => Guarded
      case Guarded => Nominal
      case Nominal => Nominal
    }
  }

  function MaxLevel(a: Level, b: Level): Level {
    if a.Rank() < b.Rank() then b else a
  }

  /** One call of `observe`: the requested level and the instant it arrives. */
  datatype Request = Request(level: Level, now: int)

  /** The two limits a caller passes on every call. */
  datatype Policy = Policy(cycles: U32, longest: nat)

  datatype Hold = Hold(level: Level, streak: U32, startedAt: Option<int>)

  const DEFAULT_HOLD := Hold(Nominal, 0, None)

  function SaturatingSince(now: int, start: int): nat {
    if now < start then 0 else now - start
  }

  function Observed(h: Hold, r: Request, p: Policy): Hold {
    if h.level.Rank() < r.level.Rank() then
      Hold(r.level, 0, None)
    else if r.level.Rank() < h.level.Rank() then
      var start := if h.startedAt.Some? then h.startedAt.value else r.now;
      var streak := Min(h.streak + 1, U32_MAX);
      if p.cycles <= streak || p.longest <= SaturatingSince(r.now, start) then
        Hold(h.level.OneStepDown(), 0, None)
      else
        Hold(h.level, streak, Some(start))
    else
      Hold(h.level, 0, None)
  }

  /** The state after a whole trace, last event outermost. */
  function Replay(h: Hold, trace: seq<Request>, p: Policy): Hold {
    if trace == [] then h
    else Observed(Replay(h, trace[..|trace| - 1], p), trace[|trace| - 1], p)
  }

  class LevelHold {
    var level: Level
    var recoveryStreak: U32
    var recoveryStartedAt: Option<int>

    ghost function State(): Hold
      reads this
    {
      Hold(level, recoveryStreak, recoveryStartedAt)
    }

    constructor ()
      ensures State() == DEFAULT_HOLD
    {
      level, recoveryStreak, recoveryStartedAt := Nominal, 0, None;
    }

    method Observe(requested: Level, now: int, recoveryCycles: U32, recoveryMax: nat)
      modifies this
      ensures State() == Observed(old(State()), Request(requested, now), Policy(recoveryCycles, recoveryMax))
      ensures requested.Rank() <= level.Rank()
      ensures old(level).Rank() <= level.Rank() + 1
    {
      if level.Rank() < requested.Rank() {
        level, recoveryStreak, recoveryStartedAt := requested, 0, None;
      } else if requested.Rank() < level.Rank() {
        if recoveryStartedAt.None? {
          recoveryStartedAt := Some(now);
        }
        recoveryStreak := if recoveryStreak < U32_MAX then recoveryStreak + 1 else recoveryStreak;
        if recoveryCycles <= recoveryStreak || recoveryMax <= SaturatingSince(now, recoveryStartedAt.value) {
          level, recoveryStreak, recoveryStartedAt := level.OneStepDown(), 0, None;
        }
      } else {
        recoveryStreak, recoveryStartedAt := 0, None;
      }
    }
  }

  // ---------------------------------------------------------------- comparison

  /** Nothing that `h` remembers lies after `now`. */
  predicate StartedBy(h: Hold, now: int) {
    h.startedAt.Some? ==> h.startedAt.value <= now
  }

  predicate Chronological(trace: seq<Request>) {
    forall i, j | 0 <= i < j < |trace| :: trace[i].now <= trace[j].now
  }

  /** `b` holds at least as high as `a`, and where they are level `b` is no closer to falling. */
  predicate Dominates(b: Hold, a: Hold) {
    || a.level.Rank() < b.level.Rank()
    || (&& a.level == b.level
        && b.streak <= a.streak
        && (b.startedAt.Some? ==> a.startedAt.Some? && a.startedAt.value <= b.startedAt.value))
  }

  lemma DominatesStep(a: Hold, b: Hold, ra: Request, rb: Request, pa: Policy, pb: Policy)
    requires Dominates(b, a) && StartedBy(a, ra.now)
    requires ra.now == rb.now && ra.level.Rank() <= rb.level.Rank()
    requires pa.cycles <= pb.cycles && pa.longest <= pb.longest
    ensures Dominates(Observed(b, rb, pb), Observed(a, ra, pa))
    ensures StartedBy(Observed(a, ra, pa), ra.now)
  {
  }

  predicate SameClock(ta: seq<Request>, tb: seq<Request>) {
    |ta| == |tb| && forall i | 0 <= i < |ta| :: ta[i].now == tb[i].now
  }

  predicate PointwiseAtMost(ta: seq<Request>, tb: seq<Request>) {
    |ta| == |tb| && forall i | 0 <= i < |ta| :: ta[i].level.Rank() <= tb[i].level.Rank()
  }

  /** Comparison theorem, for any two related starting states. */
  lemma {:induction false} Comparison(a: Hold, b: Hold, ta: seq<Request>, tb: seq<Request>, pa: Policy, pb: Policy)
    requires Dominates(b, a)
    requires Chronological(ta) && (|ta| > 0 ==> StartedBy(a, ta[0].now))
    requires SameClock(ta, tb) && PointwiseAtMost(ta, tb)
    requires pa.cycles <= pb.cycles && pa.longest <= pb.longest
    ensures Dominates(Replay(b, tb, pb), Replay(a, ta, pa))
    ensures |ta| > 0 ==> StartedBy(Replay(a, ta, pa), ta[|ta| - 1].now)
  {
    if ta == [] {
    } else {
      var n := |ta| - 1;
      Comparison(a, b, ta[..n], tb[..n], pa, pb);
      DominatesStep(Replay(a, ta[..n], pa), Replay(b, tb[..n], pb), ta[n], tb[n], pa, pb);
    }
  }

  /** From the default state: the stricter lane is at least as high after every prefix. */
  lemma ComparisonAtEveryStep(ta: seq<Request>, tb: seq<Request>, pa: Policy, pb: Policy)
    requires Chronological(ta) && SameClock(ta, tb) && PointwiseAtMost(ta, tb)
    requires pa.cycles <= pb.cycles && pa.longest <= pb.longest
    ensures forall n | 0 <= n <= |ta| ::
              Replay(DEFAULT_HOLD, ta[..n], pa).level.Rank() <= Replay(DEFAULT_HOLD, tb[..n], pb).level.Rank()
  {
    forall n | 0 <= n <= |ta|
      ensures Replay(DEFAULT_HOLD, ta[..n], pa).level.Rank() <= Replay(DEFAULT_HOLD, tb[..n], pb).level.Rank()
    {
      Comparison(DEFAULT_HOLD, DEFAULT_HOLD, ta[..n], tb[..n], pa, pb);
    }
  }

  // ------------------------------------------------------------ exact recovery

  function LevelAt(trace: seq<Request>, k: nat, p: Policy): Level
    requires k <= |trace|
  {
    Replay(DEFAULT_HOLD, trace[..k], p).level
  }

  /** Event `k` asked for less than the level then held, and the level did not move. */
  predicate Waiting(trace: seq<Request>, k: nat, p: Policy)
    requires k < |trace|
  {
    trace[k].level.Rank() < LevelAt(trace, k, p).Rank() && LevelAt(trace, k + 1, p) == LevelAt(trace, k, p)
  }

  /** `j` is where the unbroken run of waiting events that ends the trace begins. */
  predicate LullFrom(trace: seq<Request>, j: nat, p: Policy) {
    && j <= |trace|
    && (forall k | j <= k < |trace| :: Waiting(trace, k, p))
    && (j > 0 ==> !Waiting(trace, j - 1, p))
  }

  lemma WaitingInPrefix(trace: seq<Request>, n: nat, k: nat, p: Policy)
    requires k < n <= |trace|
    ensures Waiting(trace[..n], k, p) == Waiting(trace, k, p)
  {
    assert trace[..n][..k] == trace[..k];
    assert trace[..n][..k + 1] == trace[..k + 1];
  }

  lemma LastEvent(trace: seq<Request>, p: Policy)
    requires trace != []
    ensures Replay(DEFAULT_HOLD, trace, p)
         == Observed(Replay(DEFAULT_HOLD, trace[..|trace| - 1], p), trace[|trace| - 1], p)
    ensures LevelAt(trace, |trace|, p) == Replay(DEFAULT_HOLD, trace, p).level
  {
    assert trace[..|trace|] == trace;
  }

  lemma {:induction false} LullExists(trace: seq<Request>, p: Policy) returns (j: nat)
    ensures LullFrom(trace, j, p)
  {
    if trace == [] {
      j := 0;
    } else {
      var n := |trace| - 1;
      if Waiting(trace, n, p) {
        j := LullExists(trace[..n], p);
        forall k | j <= k < |trace| ensures Waiting(trace, k, p) {
          if k < n { WaitingInPrefix(trace, n, k, p); }
        }
        if j > 0 { WaitingInPrefix(trace, n, j - 1, p); }
      } else {
        j := |trace|;
      }
    }
  }

  /** What the two recovery fields mean in terms of the history. */
  lemma {:induction false} LullState(trace: seq<Request>, j: nat, p: Policy)
    requires LullFrom(trace, j, p)
    ensures Replay(DEFAULT_HOLD, trace, p).streak == Min(|trace| - j, U32_MAX)
    ensures Replay(DEFAULT_HOLD, trace, p).startedAt == if j < |trace| then Some(trace[j].now) else None
  {
    if trace == [] {
    } else {
      var n := |trace| - 1;
      LastEvent(trace, p);
      if j < |trace| {
        assert Waiting(trace, n, p);
        forall k | j <= k < n ensures Waiting(trace[..n], k, p) { WaitingInPrefix(trace, n, k, p); }
        if j > 0 { WaitingInPrefix(trace, n, j - 1, p); }
        LullState(trace[..n], j, p);
      }
    }
  }

  /** The next request lowers the level exactly when it asks for less and either the run of
      waiting requests, this one included, is long enough or its first request is old enough. */
  lemma ExactRecovery(trace: seq<Request>, j: nat, r: Request, p: Policy)
    requires LullFrom(trace, j, p)
    ensures var before := Replay(DEFAULT_HOLD, trace, p).level;
            var after := Replay(DEFAULT_HOLD, trace + [r], p).level;
            var first := if j < |trace| then trace[j].now else r.now;
            && (after.Rank() < before.Rank() <==>
                && r.level.Rank() < before.Rank()
                && (p.cycles <= |trace| - j + 1 || p.longest <= SaturatingSince(r.now, first)))
            && (after.Rank() < before.Rank() ==> after.Rank() == before.Rank() - 1)
            && (before.Rank() < after.Rank() <==> before.Rank() < r.level.Rank())
            && (before.Rank() <= r.level.Rank() ==> after == r.level)
  {
    LullState(trace, j, p);
    assert (trace + [r])[..|trace|] == trace;
    LastEvent(trace + [r], p);
  }

  // ------------------------------------------------------------ recovery bound

  /** How many more requests at or below `m` are certain to bring `h` to `m`. */
  function Debt(h: Hold, m: Level, p: Policy): nat {
    if h.level.Rank() <= m.Rank() then 0
    else (if h.level.Rank() == m.Rank() + 2 then p.cycles else 0)
         + (if h.streak < p.cycles then p.cycles - h.streak else 1)
  }

  lemma {:induction false} DebtIsPaid(h: Hold, trace: seq<Request>, m: Level, p: Policy)
    requires 0 < p.cycles
    requires forall i | 0 <= i < |trace| :: trace[i].level.Rank() <= m.Rank()
    ensures Debt(Replay(h, trace, p), m, p) <= if |trace| < Debt(h, m, p) then Debt(h, m, p) - |trace| else 0
  {
    if trace == [] {
    } else {
      DebtIsPaid(h, trace[..|trace| - 1], m, p);
    }
  }

  /** From any state whatever, and at any cadence, `2 * cycles` requests that never exceed `m`
      leave the level at or below `m`. */
  lemma RecoveryBound(h: Hold, trace: seq<Request>, m: Level, p: Policy)
    requires 0 < p.cycles && 2 * p.cycles <= |trace|
    requires forall i | |trace| - 2 * p.cycles <= i < |trace| :: trace[i].level.Rank() <= m.Rank()
    ensures Replay(h, trace, p).level.Rank() <= m.Rank()
  {
    var k := |trace| - 2 * p.cycles;
    ReplayConcat(h, trace[..k], trace[k..], p);
    assert trace[..k] + trace[k..] == trace;
    DebtIsPaid(Replay(h, trace[..k], p), trace[k..], m, p);
  }

  lemma {:induction false} ReplayConcat(h: Hold, a: seq<Request>, b: seq<Request>, p: Policy)
    ensures Replay(h, a + b, p) == Replay(Replay(h, a, p), b, p)
  {
    if b == [] {
      assert a + b == a;
    } else {
      assert (a + b)[..|a + b| - 1] == a + b[..|b| - 1];
      ReplayConcat(h, a, b[..|b| - 1], p);
    }
  }

  /** Fewer requests than the recovery cycles, within less than the wall-clock limit, never lower a
      hold that has just been refreshed. */
  lemma {:induction false} HoldsOut(h: Hold, rest: seq<Request>, p: Policy)
    requires h.streak == 0 && h.startedAt == None && Chronological(rest) && |rest| < p.cycles
    requires rest != [] ==> rest[|rest| - 1].now - rest[0].now < p.longest
    ensures var after := Replay(h, rest, p);
            && h.level.Rank() <= after.level.Rank()
            && after.streak <= |rest|
            && (after.startedAt.Some? ==> rest != [] && rest[0].now <= after.startedAt.value <= rest[|rest| - 1].now)
  {
    if rest == [] {
    } else {
      HoldsOut(h, rest[..|rest| - 1], p);
    }
  }

  /** If all of them ask for less, the hold waits and remembers how many there were and since when. */
  lemma {:induction false} WaitsOut(h: Hold, rest: seq<Request>, p: Policy)
    requires h.streak == 0 && h.startedAt == None && |rest| < p.cycles && Chronological(rest)
    requires rest != [] ==> rest[|rest| - 1].now - rest[0].now < p.longest
    requires forall i | 0 <= i < |rest| :: rest[i].level.Rank() < h.level.Rank()
    ensures Replay(h, rest, p) == Hold(h.level, |rest|, if rest == [] then None else Some(rest[0].now))
  {
    if rest == [] {
    } else {
      WaitsOut(h, rest[..|rest| - 1], p);
    }
  }

  lemma SteadyRecovery(level: Level, n: nat, t: int, p: Policy)
    requires level != Nominal && n < p.cycles && 0 < p.longest
    ensures Replay(Hold(level, 0, None), Repeated(Request(Nominal, t), n), p)
         == Hold(level, n, if n == 0 then None else Some(t))
  {
    WaitsOut(Hold(level, 0, None), Repeated(Request(Nominal, t), n), p);
  }

  lemma SteadyFall(level: Level, t: int, p: Policy)
    requires level != Nominal && 0 < p.cycles && 0 < p.longest
    ensures Replay(Hold(level, 0, None), Repeated(Request(Nominal, t), p.cycles), p)
         == Hold(level.OneStepDown(), 0, None)
  {
    var c: nat := p.cycles;
    SteadyRecovery(level, c - 1, t, p);
    assert Repeated(Request(Nominal, t), c)[..c - 1] == Repeated(Request(Nominal, t), c - 1);
  }

  lemma NotYetDown(t: int, p: Policy)
    requires 0 < p.cycles && 0 < p.longest
    ensures Replay(Hold(Constrained, 0, None), Repeated(Request(Nominal, t), 2 * p.cycles - 1), p).level == Guarded
  {
    var c: nat := p.cycles;
    var top, quiet := Hold(Constrained, 0, None), Request(Nominal, t);
    var first, rest := Repeated(quiet, c), Repeated(quiet, c - 1);
    assert Replay(top, first + rest, p) == Replay(Replay(top, first, p), rest, p) by {
      ReplayConcat(top, first, rest, p);
    }
    assert Replay(top, first, p) == Hold(Guarded, 0, None) by {
      SteadyFall(Constrained, t, p);
    }
    assert Replay(Hold(Guarded, 0, None), rest, p).level == Guarded by {
      SteadyRecovery(Guarded, c - 1, t, p);
    }
    assert first + rest == Repeated(quiet, 2 * c - 1) by {
      RepeatedConcat(quiet, c, c - 1);
    }
  }

  /** The bound is tight: a lane raised to Constrained is still above Nominal after one
      request fewer, when the requests come too fast for the wall-clock limit. */
  lemma RecoveryBoundIsTight(t: int, p: Policy)
    requires 0 < p.cycles && 0 < p.longest
    ensures var trace := [Request(Constrained, t)] + Repeated(Request(Nominal, t), 2 * p.cycles - 1);
            Replay(DEFAULT_HOLD, trace, p).level == Guarded
  {
    var one := [Request(Constrained, t)];
    assert Replay(DEFAULT_HOLD, one, p) == Hold(Constrained, 0, None) by {
      assert one[..0] == [];
    }
    NotYetDown(t, p);
    ReplayConcat(DEFAULT_HOLD, one, Repeated(Request(Nominal, t), 2 * p.cycles - 1), p);
  }

  // --------------------------------------------------------- recovery in elapsed time

  /** Consecutive requests are at most `gap` apart. */
  predicate GapsAtMost(trace: seq<Request>, gap: nat) {
    forall i | 0 <= i < |trace| - 1 :: trace[i + 1].now <= trace[i].now + gap
  }

  /** How far a hold above `m` can be at `now`, when nothing since `began` asked for more than `m`:
      two steps above, its run started by `began` and is not yet old enough; one step above, the
      run before it ended in time, and its own started at most one gap later. */
  predicate OnSchedule(h: Hold, m: Level, p: Policy, began: int, gap: nat, now: int) {
    match h.startedAt
    case None => h.level.Rank() == m.Rank() + 1 && now <= began + p.longest + gap
    case Some(start) =>
      && now - start < p.longest
      && start <= if h.level.Rank() == m.Rank() + 1 then began + p.longest + 2 * gap else began
  }

  lemma FirstOnSchedule(h: Hold, r: Request, m: Level, p: Policy, gap: nat)
    requires StartedBy(h, r.now) && r.level.Rank() <= m.Rank() && 0 < p.longest + gap
    ensures var next := Observed(h, r, p);
            next.level.Rank() <= m.Rank() || OnSchedule(next, m, p, r.now, gap, r.now)
  {
  }

  lemma NextOnSchedule(h: Hold, r: Request, m: Level, p: Policy, began: int, gap: nat, now: int)
    requires h.level.Rank() <= m.Rank() || OnSchedule(h, m, p, began, gap, now)
    requires now <= r.now <= now + gap && StartedBy(h, now) && r.level.Rank() <= m.Rank()
    ensures var next := Observed(h, r, p);
            StartedBy(next, r.now)
            && (next.level.Rank() <= m.Rank() || OnSchedule(next, m, p, began, gap, r.now))
  {
  }

  lemma {:induction false} RunOnSchedule(h: Hold, trace: seq<Request>, m: Level, p: Policy, gap: nat)
    requires trace != [] && Chronological(trace) && GapsAtMost(trace, gap) && StartedBy(h, trace[0].now)
    requires 0 < p.longest + gap && forall i | 0 <= i < |trace| :: trace[i].level.Rank() <= m.Rank()
    ensures var last := trace[|trace| - 1].now;
            var after := Replay(h, trace, p);
            StartedBy(after, last)
            && (after.level.Rank() <= m.Rank() || OnSchedule(after, m, p, trace[0].now, gap, last))
  {
    var n := |trace| - 1;
    if n == 0 {
      assert trace[..n] == [];
      FirstOnSchedule(h, trace[0], m, p, gap);
    } else {
      RunOnSchedule(h, trace[..n], m, p, gap);
      NextOnSchedule(Replay(h, trace[..n], p), trace[n], m, p, trace[0].now, gap, trace[n - 1].now);
    }
  }

  /** From any state whatever, and with any number of requests, `2 * longest + 2 * gap` of elapsed
      time in which none exceeds `m` and none is more than `gap` late leave the level at or below `m`. */
  lemma ElapsedRecoveryBound(h: Hold, trace: seq<Request>, m: Level, p: Policy, gap: nat)
    requires trace != [] && Chronological(trace) && GapsAtMost(trace, gap) && StartedBy(h, trace[0].now)
    requires 0 < p.longest + gap && forall i | 0 <= i < |trace| :: trace[i].level.Rank() <= m.Rank()
    requires 2 * p.longest + 2 * gap <= trace[|trace| - 1].now - trace[0].now
    ensures Replay(h, trace, p).level.Rank() <= m.Rank()
  {
    RunOnSchedule(h, trace, m, p, gap);
  }
}
