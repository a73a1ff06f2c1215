/** Restoring the stutter envelope from a snapshot file: `sanitize`, in place. */
module StutterRestoring {
  import opened Sequences
  import opened StutterEnvelope
  import opened StutterSignals
  import opened StutterTraces
  import opened StutterWindows
  import opened Wrappers

  type FloatSignals = s: seq<Float> | |s| == SIGNAL_COUNT
    witness [NotANumber, NotANumber, NotANumber, NotANumber, NotANumber, NotANumber, NotANumber, NotANumber, NotANumber]

  /** A regime as read back: nothing is known about its numbers or its window length. */
  datatype StoredRegime = StoredRegime(samples: seq<FloatSignals>, thresholds: FloatSignals,
                                       previous: Option<FloatSignals>, accepted: U64, shadow: U64)

  function OnlyFinite(): FloatSignals -> bool {
    (sample: FloatSignals) => AllFinite(sample)
  }

  function SanitizedThreshold(f: Float, i: nat): real
    requires i < SIGNAL_COUNT
  {
    Clamp(if f.Finite? then f.value else THRESHOLD_FLOORS[i], THRESHOLD_FLOORS[i], MAX_LEARNED_THRESHOLD)
  }

  function SanitizedThresholds(t: FloatSignals): FloatSignals {
    seq(SIGNAL_COUNT, i requires 0 <= i < SIGNAL_COUNT => Finite(SanitizedThreshold(t[i], i)))
  }

  function Sanitized(r: StoredRegime): StoredRegime {
    StoredRegime(Filter(OnlyFinite(), LastCapacity(r.samples)), SanitizedThresholds(r.thresholds),
                 if r.previous.Some? && !AllFinite(r.previous.value) then None else r.previous, r.accepted, r.shadow)
  }

  class StoredEnvelope {
    var samples: seq<FloatSignals>
    const thresholds: array<Float>
    var previous: Option<FloatSignals>
    const acceptedTotal: U64
    const shadowObservations: U64

    ghost predicate Valid() {
      thresholds.Length == SIGNAL_COUNT
    }

    ghost function State(): StoredRegime
      requires Valid()
      reads this, thresholds
    {
      StoredRegime(samples, thresholds[..], previous, acceptedTotal, shadowObservations)
    }

    constructor (r: StoredRegime)
      ensures Valid() && fresh(thresholds)
      ensures State() == r
    {
      thresholds := new Float[SIGNAL_COUNT](i requires 0 <= i < SIGNAL_COUNT => r.thresholds[i]);
      samples, previous, acceptedTotal, shadowObservations := r.samples, r.previous, r.accepted, r.shadow;
      new;
      assert thresholds[..] == r.thresholds;
    }

    method Sanitize()
      requires Valid()
      modifies this, thresholds
      ensures State() == Sanitized(old(State()))
    {
      KeepNewest();
      Retain();
      ClampThresholds();
      if previous.Some? && !AllFinite(previous.value) {
        previous := None;
      }
    }

    method KeepNewest()
      modifies this`samples
      ensures samples == LastCapacity(old(samples))
    {
      while |samples| > BASELINE_WINDOW_CAPACITY
        invariant LastCapacity(samples) == LastCapacity(old(samples))
      {
        samples := samples[1..];
      }
    }

    method Retain()
      modifies this`samples
      ensures samples == Filter(OnlyFinite(), old(samples))
    {
      var all := samples;
      samples := [];
      for i := 0 to |all|
        invariant samples == Filter(OnlyFinite(), all[..i])
      {
        assert all[..i + 1] == all[..i] + [all[i]];
        FilterAppend(OnlyFinite(), all[..i], all[i]);
        if AllFinite(all[i]) {
          samples := samples + [all[i]];
        }
      }
      assert all[..|all|] == all;
    }

    method ClampThresholds()
      requires Valid()
      modifies thresholds
      ensures thresholds[..] == SanitizedThresholds(old(thresholds[..]))
    {
      for i := 0 to SIGNAL_COUNT
        invariant forall j | 0 <= j < i :: thresholds[j] == Finite(SanitizedThreshold(old(thresholds[j]), j))
        invariant forall j | i <= j < SIGNAL_COUNT :: thresholds[j] == old(thresholds[j])
      {
        if !thresholds[i].Finite? {
          thresholds[i] := Finite(THRESHOLD_FLOORS[i]);
        }
        thresholds[i] := Finite(Clamp(thresholds[i].value, THRESHOLD_FLOORS[i], MAX_LEARNED_THRESHOLD));
      }
    }
  }

  // ------------------------------------------------------------- finite states, stored

  function Values(f: FloatSignals): (s: Signals)
    requires AllFinite(f)
  {
    seq(SIGNAL_COUNT, i requires 0 <= i < SIGNAL_COUNT => f[i].value)
  }

  function Floats(s: Signals): (f: FloatSignals)
    ensures AllFinite(f) && Values(f) == s
  {
    var f := seq(SIGNAL_COUNT, i requires 0 <= i < SIGNAL_COUNT => Finite(s[i]));
    assert Values(f) == s;
    f
  }

  function StoredSamples(samples: seq<Signals>): (f: seq<FloatSignals>)
    ensures |f| == |samples| && forall i | 0 <= i < |f| :: f[i] == Floats(samples[i])
  {
    seq(|samples|, i requires 0 <= i < |samples| => Floats(samples[i]))
  }

  function Stored(s: RegimeState): StoredRegime {
    StoredRegime(StoredSamples(s.samples), Floats(s.thresholds),
                 if s.previous.Some? then Some(Floats(s.previous.value)) else None, s.accepted, s.shadow)
  }

  /** The window is bounded and every threshold lies between its floor and the ceiling. */
  predicate Sound(s: RegimeState) {
    && |s.samples| <= BASELINE_WINDOW_CAPACITY
    && forall i | 0 <= i < SIGNAL_COUNT :: THRESHOLD_FLOORS[i] <= s.thresholds[i] <= MAX_LEARNED_THRESHOLD
  }

  lemma FloatsOfValues(f: FloatSignals)
    requires AllFinite(f)
    ensures Floats(Values(f)) == f
  {
  }

  lemma {:induction false} FilterShrinks<T>(p: T -> bool, s: seq<T>)
    ensures |Filter(p, s)| <= |s|
  {
    if s != [] { FilterShrinks(p, s[..|s| - 1]); }
  }

  lemma StoredValues(samples: seq<FloatSignals>) returns (values: seq<Signals>)
    requires forall i | 0 <= i < |samples| :: AllFinite(samples[i])
    ensures |values| == |samples| && StoredSamples(values) == samples
  {
    values := seq(|samples|, i requires 0 <= i < |samples| => Values(samples[i]));
    forall i | 0 <= i < |samples| ensures Floats(values[i]) == samples[i] {
      FloatsOfValues(samples[i]);
    }
  }

  lemma StoredThresholds(t: FloatSignals) returns (values: Signals)
    ensures Floats(values) == SanitizedThresholds(t)
    ensures forall i | 0 <= i < SIGNAL_COUNT :: THRESHOLD_FLOORS[i] <= values[i] <= MAX_LEARNED_THRESHOLD
  {
    values := seq(SIGNAL_COUNT, i requires 0 <= i < SIGNAL_COUNT => SanitizedThreshold(t[i], i));
    assert Floats(values) == SanitizedThresholds(t);
  }

  /** Whatever the file held, what is left is a sound regime state. */
  lemma SanitizedIsSound(r: StoredRegime) returns (s: RegimeState)
    ensures Sound(s) && Sanitized(r) == Stored(s)
  {
    var kept := Filter(OnlyFinite(), LastCapacity(r.samples));
    FilterMembers(OnlyFinite(), LastCapacity(r.samples));
    FilterShrinks(OnlyFinite(), LastCapacity(r.samples));
    forall i | 0 <= i < |kept| ensures AllFinite(kept[i]) {
      assert kept[i] in kept && OnlyFinite()(kept[i]);
    }
    var samples := StoredValues(kept);
    var thresholds := StoredThresholds(r.thresholds);
    var previous := None;
    if r.previous.Some? && AllFinite(r.previous.value) {
      previous := Some(Values(r.previous.value));
      FloatsOfValues(r.previous.value);
    }
    s := RegimeState(samples, thresholds, previous, r.accepted, r.shadow);
  }

  /** What `sanitize` leaves: of the newest 120 samples the finite ones in order, each threshold moved to
      the nearest value between its floor and 0.90, or to its floor if it is not a number, and the
      previous sample unless a reading of it is not finite. */
  lemma SanitizedMeaning(r: StoredRegime)
    ensures var newest := r.samples[|r.samples| - Min(|r.samples|, 120)..];
            Sanitized(r).samples == Filter(OnlyFinite(), newest)
    ensures forall i | 0 <= i < 9 ::
              var f, t := r.thresholds[i], Sanitized(r).thresholds[i];
              && t.Finite? && THRESHOLD_FLOORS[i] <= t.value <= 0.90
              && (f.Finite? && THRESHOLD_FLOORS[i] <= f.value <= 0.90 ==> t == f)
              && (f.Finite? && 0.90 < f.value ==> t.value == 0.90)
              && (!f.Finite? || f.value < THRESHOLD_FLOORS[i] ==> t.value == THRESHOLD_FLOORS[i])
    ensures Sanitized(r).previous == if r.previous.Some? && forall i | 0 <= i < 9 :: r.previous.value[i].Finite?
                                     then r.previous else None
    ensures Sanitized(r).accepted == r.accepted && Sanitized(r).shadow == r.shadow
  {
  }

  lemma {:induction false} SoundIsKept(s: RegimeState, trace: seq<Observation>)
    requires Sound(s)
    ensures Sound(RunRegime(s, trace))
  {
    if trace == [] {
    } else {
      SoundIsKept(s, trace[..|trace| - 1]);
    }
  }

  /** `sanitize` changes nothing in a state that observation can reach, from a fresh start or from
      any file, so storing and restoring loses nothing. */
  lemma SanitizeKeepsReachableStates(s: RegimeState, trace: seq<Observation>)
    requires Sound(s)
    ensures Sanitized(Stored(RunRegime(s, trace))) == Stored(RunRegime(s, trace))
  {
    var t := RunRegime(s, trace);
    SoundIsKept(s, trace);
    FilterAll(OnlyFinite(), StoredSamples(t.samples));
    forall i | 0 <= i < SIGNAL_COUNT ensures SanitizedThreshold(Floats(t.thresholds)[i], i) == t.thresholds[i] {
      assert Values(Floats(t.thresholds))[i] == t.thresholds[i];
    }
    assert SanitizedThresholds(Floats(t.thresholds)) == Floats(t.thresholds);
  }

  /** A file may hold a saturated counter, and `sanitize` leaves it alone. */
  lemma SaturatedIsRestored()
    ensures Sound(SATURATED) && Sanitized(Stored(SATURATED)) == Stored(SATURATED)
  {
    SanitizeKeepsReachableStates(SATURATED, []);
  }
}
