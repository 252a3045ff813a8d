/** Decay towards a baseline, and the mood over whole histories of updates,
    resets, deltas and evaluations under one configuration.

    `half` stands for the power of one half: it takes elapsed time to a factor,
    and turns sums of times into products of factors. */
module MoodDecay {
  import opened Wrappers
  import opened MoodVectors
  import opened MoodClamp

  datatype DecayConfig = DecayConfig(enabled: bool, halfLifeSeconds: int)

  /** A time of 0 is the zero time. */
  datatype Mood = Mood(vector: MoodVector, updatedAt: int)

  ghost predicate HalfLife(half: int -> real)
  {
    && (forall a :: a >= 0 ==> 0.0 <= half(a) <= 1.0)
    && (forall a, b :: a >= 0 && b >= 0 ==> half(a + b) == Times(half(a), half(b)))
  }

  function DecayTo(baseline: real, stored: real, factor: real): real
  {
    baseline + Times(stored - baseline, factor)
  }

  function DecayVector(stored: MoodVector, baseline: MoodVector, factor: real): (r: MoodVector)
    ensures forall d :: r.Get(d) == DecayTo(baseline.Get(d), stored.Get(d), factor)
  {
    Build(d => DecayTo(baseline.Get(d), stored.Get(d), factor))
  }

  predicate Decays(cfg: DecayConfig, stored: Mood, now: int)
  {
    cfg.enabled && cfg.halfLifeSeconds > 0 && stored.updatedAt != 0 && now > stored.updatedAt
  }

  /** The time stamp is kept: the decayed mood is for reading, not for storing. */
  function ApplyStateDecay(cfg: DecayConfig, half: int -> real, stored: Mood, baseline: MoodVector, now: int): Mood
  {
    if !Decays(cfg, stored, now) then stored
    else stored.(vector := DecayVector(stored.vector, baseline, half(now - stored.updatedAt)))
  }

  lemma DecayedGap(baseline: real, stored: real, factor: real)
    ensures DecayTo(baseline, stored, factor) - baseline == (stored - baseline) * factor
  {}

  /** While decay is on, the stamp is set and time has passed, the gap to the baseline is in every
      dimension the stored gap times the factor; otherwise the stored mood stands.  The stamp stays. */
  lemma GapShrinks(cfg: DecayConfig, half: int -> real, stored: Mood, baseline: MoodVector, now: int, d: Dim)
    ensures var seen := ApplyStateDecay(cfg, half, stored, baseline, now);
            var gap := stored.vector.Get(d) - baseline.Get(d);
            && seen.updatedAt == stored.updatedAt
            && seen.vector.Get(d) - baseline.Get(d)
               == if cfg.enabled && cfg.halfLifeSeconds > 0 && stored.updatedAt != 0 && stored.updatedAt < now
                  then gap * half(now - stored.updatedAt) else gap
  {
    if Decays(cfg, stored, now) {
      DecayedGap(baseline.Get(d), stored.vector.Get(d), half(now - stored.updatedAt));
      hide DecayTo;
    }
  }

  // ---------------------------------------------------------------- between the stored state and the baseline

  lemma DecayBetween(baseline: real, stored: real, factor: real, lo: real, hi: real)
    requires 0.0 <= factor <= 1.0 && lo <= baseline <= hi && lo <= stored <= hi
    ensures lo <= DecayTo(baseline, stored, factor) <= hi
  {
    var part := Times(stored - baseline, factor);
    Fraction(stored - baseline, factor);
    assert DecayTo(baseline, stored, factor) == baseline + part;
  }

  lemma DecayInBox(limits: MoodLimits, cfg: DecayConfig, half: int -> real, stored: Mood, baseline: MoodVector, now: int)
    requires HalfLife(half) && InBox(limits, stored.vector) && InBox(limits, baseline)
    ensures InBox(limits, ApplyStateDecay(cfg, half, stored, baseline, now).vector)
  {
    if Decays(cfg, stored, now) {
      var factor := half(now - stored.updatedAt);
      var r := DecayVector(stored.vector, baseline, factor);
      forall d ensures Within(limits, d, r.Get(d)) {
        assert Within(limits, d, stored.vector.Get(d)) && Within(limits, d, baseline.Get(d));
        DecayBetween(baseline.Get(d), stored.vector.Get(d), factor, Low(d), High(limits, d));
      }
    }
  }

  lemma DecayComposes(baseline: real, stored: real, f: real, g: real)
    ensures DecayTo(baseline, DecayTo(baseline, stored, f), g) == DecayTo(baseline, stored, Times(f, g))
  {
    var gap := stored - baseline;
    assert (gap * f) * g == gap * (f * g);
  }

  /** Decaying from a state that is off by at most `e` ends off by at most `e`. */
  lemma DecayShrinksError(baseline: real, x: real, y: real, factor: real, e: real)
    requires 0.0 <= factor <= 1.0 && Abs(x - y) <= e
    ensures Abs(DecayTo(baseline, x, factor) - DecayTo(baseline, y, factor)) <= e
  {
    Fraction(x - y, factor);
    assert Times(x - baseline, factor) - Times(y - baseline, factor) == Times(x - y, factor);
  }

  /** Storing the decayed mood at t1 and decaying it on to t2 is decaying to t2 at once. */
  lemma DecayInTwoSteps(cfg: DecayConfig, half: int -> real, stored: Mood, baseline: MoodVector, t1: int, t2: int)
    requires HalfLife(half) && 0 < stored.updatedAt <= t1 <= t2
    ensures var mid := Mood(ApplyStateDecay(cfg, half, stored, baseline, t1).vector, t1);
            ApplyStateDecay(cfg, half, mid, baseline, t2).vector == ApplyStateDecay(cfg, half, stored, baseline, t2).vector
  {
    var mid := Mood(ApplyStateDecay(cfg, half, stored, baseline, t1).vector, t1);
    var direct := ApplyStateDecay(cfg, half, stored, baseline, t2).vector;
    if Decays(cfg, stored, t1) && Decays(cfg, mid, t2) {
      var f, g := half(t1 - stored.updatedAt), half(t2 - t1);
      assert half((t1 - stored.updatedAt) + (t2 - t1)) == Times(f, g);
      var twice := ApplyStateDecay(cfg, half, mid, baseline, t2).vector;
      forall d ensures twice.Get(d) == direct.Get(d) {
        DecayComposes(baseline.Get(d), stored.vector.Get(d), f, g);
      }
      SameVector(twice, direct);
    }
  }

  /** An evaluation that changes nothing, committed at t1 with its rounding, leaves every later
      reading of the mood within 1e-6 of what it would have been. */
  lemma IdleCommitKeepsTrajectory(limits: MoodLimits, cfg: DecayConfig, half: int -> real, stored: Mood,
                                  baseline: MoodVector, t1: int, t2: int, d: Dim)
    requires HalfLife(half) && 0 < stored.updatedAt <= t1 <= t2
    requires InBox(limits, stored.vector) && InBox(limits, baseline)
    ensures var seen := ApplyStateDecay(cfg, half, stored, baseline, t1).vector;
            var committed := Mood(ClampMoodDelta(limits, seen, ZERO, Core).predictedState, t1);
            Abs(ApplyStateDecay(cfg, half, committed, baseline, t2).vector.Get(d)
                - ApplyStateDecay(cfg, half, stored, baseline, t2).vector.Get(d)) <= MICRO
  {
    var seen := ApplyStateDecay(cfg, half, stored, baseline, t1).vector;
    var committed := Mood(ClampMoodDelta(limits, seen, ZERO, Core).predictedState, t1);
    DecayInBox(limits, cfg, half, stored, baseline, t1);
    IdleCommitIsNear(limits, seen, d);
    DecayInTwoSteps(cfg, half, stored, baseline, t1, t2);
    hide ClampMoodDelta, InBox, ApplyStateDecay;
    NearMoodsStayNear(cfg, half, committed, Mood(seen, t1), baseline, t2, d);
  }

  lemma NearMoodsStayNear(cfg: DecayConfig, half: int -> real, a: Mood, b: Mood, baseline: MoodVector, now: int, d: Dim)
    requires HalfLife(half) && a.updatedAt == b.updatedAt && Abs(a.vector.Get(d) - b.vector.Get(d)) <= MICRO
    ensures Abs(ApplyStateDecay(cfg, half, a, baseline, now).vector.Get(d)
                - ApplyStateDecay(cfg, half, b, baseline, now).vector.Get(d)) <= MICRO
  {
    if Decays(cfg, a, now) {
      DecayShrinksError(baseline.Get(d), a.vector.Get(d), b.vector.Get(d), half(now - a.updatedAt), MICRO);
    }
  }

  lemma IdleCommitIsNear(limits: MoodLimits, seen: MoodVector, d: Dim)
    requires InBox(limits, seen)
    ensures Abs(ClampMoodDelta(limits, seen, ZERO, Core).predictedState.Get(d) - seen.Get(d)) <= MICRO
  {
    ZeroDeltaStays(limits, seen, Core);
    ResultAt(limits, seen, ZERO, Core, d);
    RoundNear(seen.Get(d));
    hide ClampMoodDelta, Round, Target;
  }

  // ---------------------------------------------------------------- histories

  /** The committed mood, if there is one, and the profile's baseline. */
  datatype MoodState = MoodState(mood: Option<Mood>, baseline: MoodVector)

  /** UpdateProfile, ResetMood, ApplyMoodDelta, and a committed evaluation. */
  datatype MoodOp =
    | SetBaseline(vector: MoodVector)
    | Reset(vector: MoodVector, now: int)
    | Delta(vector: MoodVector, who: Committer, now: int)
    | Evaluation(vector: MoodVector, now: int)

  const DEFAULT_BASELINE := MoodVector(0.0, 0.2, 0.0, 0.5, 0.6, 0.3, 0.3, 0.2, 0.0, 0.0, 0.1)
  const INITIAL := MoodState(None, DEFAULT_BASELINE)

  /** Before the first commit the mood is the profile's baseline, as it is at the time. */
  function Current(s: MoodState): Mood
  {
    if s.mood.Some? then s.mood.value else Mood(s.baseline, 0)
  }

  /** The mood that an op starts from: an evaluation's is decayed, a manual delta's is not. */
  function Base(cfg: DecayConfig, half: int -> real, s: MoodState, op: MoodOp): MoodVector
  {
    if op.Evaluation? then ApplyStateDecay(cfg, half, Current(s), s.baseline, op.now).vector else Current(s).vector
  }

  predicate Moves(op: MoodOp)
  {
    op.Delta? || op.Evaluation?
  }

  /** What a delta or an evaluation commits. */
  function Commits(limits: MoodLimits, cfg: DecayConfig, half: int -> real, s: MoodState, op: MoodOp): ClampResult
    requires Moves(op)
  {
    ClampMoodDelta(limits, Base(cfg, half, s, op), op.vector, if op.Delta? then op.who else Core)
  }

  function Perform(limits: MoodLimits, cfg: DecayConfig, half: int -> real, s: MoodState, op: MoodOp): MoodState
  {
    match op
    case SetBaseline(v) => s.(baseline := ClampState(limits, v))
    case Reset(v, now) => s.(mood := Some(Mood(ClampState(limits, if v == ZERO then s.baseline else v), now)))
    case Delta(_, _, now) => s.(mood := Some(Mood(Commits(limits, cfg, half, s, op).predictedState, now)))
    case Evaluation(_, now) => s.(mood := Some(Mood(Commits(limits, cfg, half, s, op).predictedState, now)))
  }

  function History(limits: MoodLimits, cfg: DecayConfig, half: int -> real, s: MoodState, ops: seq<MoodOp>): MoodState
    decreases |ops|
  {
    if ops == [] then s else History(limits, cfg, half, Perform(limits, cfg, half, s, ops[0]), ops[1..])
  }

  // ---------------------------------------------------------------- how far states can be out of the box

  /** The highest value a dimension can be committed at: its maximum, or that rounded up. */
  function Peak(limits: MoodLimits, d: Dim): real
  {
    Most(High(limits, d), Round(High(limits, d)))
  }

  ghost predicate UnderPeak(limits: MoodLimits, v: MoodVector)
  {
    forall d :: Low(d) <= v.Get(d) <= Peak(limits, d)
  }

  lemma InBoxIsUnderPeak(limits: MoodLimits, v: MoodVector)
    requires InBox(limits, v)
    ensures UnderPeak(limits, v)
  {
    forall d ensures Low(d) <= v.Get(d) <= Peak(limits, d) {
      assert Within(limits, d, v.Get(d));
    }
  }

  lemma DecayUnderPeak(limits: MoodLimits, cfg: DecayConfig, half: int -> real, stored: Mood, baseline: MoodVector, now: int)
    requires HalfLife(half) && UnderPeak(limits, stored.vector) && UnderPeak(limits, baseline)
    ensures UnderPeak(limits, ApplyStateDecay(cfg, half, stored, baseline, now).vector)
  {
    if Decays(cfg, stored, now) {
      var factor := half(now - stored.updatedAt);
      var r := DecayVector(stored.vector, baseline, factor);
      forall d ensures Low(d) <= r.Get(d) <= Peak(limits, d) {
        DecayBetween(baseline.Get(d), stored.vector.Get(d), factor, Low(d), Peak(limits, d));
      }
    }
  }

  lemma PredictedUnderPeak(limits: MoodLimits, before: MoodVector, proposed: MoodVector, who: Committer)
    ensures UnderPeak(limits, ClampMoodDelta(limits, before, proposed, who).predictedState)
  {
    hide ClampMoodDelta, Peak;
    forall d ensures Low(d) <= ClampMoodDelta(limits, before, proposed, who).predictedState.Get(d) <= Peak(limits, d) {
      PredictedUnderPeakAt(limits, before, proposed, who, d);
    }
  }

  lemma PredictedUnderPeakAt(limits: MoodLimits, before: MoodVector, proposed: MoodVector, who: Committer, d: Dim)
    ensures Low(d) <= ClampMoodDelta(limits, before, proposed, who).predictedState.Get(d) <= Peak(limits, d)
  {
    hide ClampMoodDelta, Target, DeltaAt, Round;
    TargetAt(limits, before, proposed, who, d);
    ResultAt(limits, before, proposed, who, d);
    var target := Target(limits, before, proposed, who).Get(d);
    RoundUnits();
    RoundMonotone(Low(d), target);
    RoundMonotone(target, High(limits, d));
  }

  ghost predicate StateUnderPeak(limits: MoodLimits, s: MoodState)
  {
    UnderPeak(limits, Current(s).vector) && InBox(limits, s.baseline)
  }

  lemma BaseUnderPeak(limits: MoodLimits, cfg: DecayConfig, half: int -> real, s: MoodState, op: MoodOp)
    requires HalfLife(half) && StateUnderPeak(limits, s)
    ensures UnderPeak(limits, Base(cfg, half, s, op))
  {
    if op.Evaluation? {
      InBoxIsUnderPeak(limits, s.baseline);
      DecayUnderPeak(limits, cfg, half, Current(s), s.baseline, op.now);
    }
  }

  lemma PerformUnderPeak(limits: MoodLimits, cfg: DecayConfig, half: int -> real, s: MoodState, op: MoodOp)
    requires StateUnderPeak(limits, s)
    ensures StateUnderPeak(limits, Perform(limits, cfg, half, s, op))
  {
    hide ClampMoodDelta, ClampState, UnderPeak, InBox, Base;
    match op
    case SetBaseline(v) =>
      ClampStateInBox(limits, v);
      InBoxIsUnderPeak(limits, ClampState(limits, v));
    case Reset(v, now) =>
      var to := if v == ZERO then s.baseline else v;
      ClampStateInBox(limits, to);
      InBoxIsUnderPeak(limits, ClampState(limits, to));
    case Delta(v, who, _) => PredictedUnderPeak(limits, Base(cfg, half, s, op), v, who);
    case Evaluation(v, _) => PredictedUnderPeak(limits, Base(cfg, half, s, op), v, Core);
  }

  lemma {:induction false} HistoryUnderPeak(limits: MoodLimits, cfg: DecayConfig, half: int -> real, s: MoodState,
                                            ops: seq<MoodOp>)
    requires StateUnderPeak(limits, s)
    ensures StateUnderPeak(limits, History(limits, cfg, half, s, ops))
    decreases |ops|
  {
    if ops != [] {
      PerformUnderPeak(limits, cfg, half, s, ops[0]);
      HistoryUnderPeak(limits, cfg, half, Perform(limits, cfg, half, s, ops[0]), ops[1..]);
    }
  }

  lemma InitialInBox(limits: MoodLimits)
    ensures InBox(limits, DEFAULT_BASELINE)
  {
    forall d ensures Within(limits, d, DEFAULT_BASELINE.Get(d)) {}
  }

  lemma ReachableUnderPeak(limits: MoodLimits, cfg: DecayConfig, half: int -> real, ops: seq<MoodOp>)
    ensures StateUnderPeak(limits, History(limits, cfg, half, INITIAL, ops))
  {
    InitialInBox(limits);
    InBoxIsUnderPeak(limits, DEFAULT_BASELINE);
    HistoryUnderPeak(limits, cfg, half, INITIAL, ops);
  }

  /** A profile update moves the mood exactly until the first commit. */
  lemma ProfileMovesMoodIff(limits: MoodLimits, cfg: DecayConfig, half: int -> real, s: MoodState)
    ensures (forall v :: Current(Perform(limits, cfg, half, s, SetBaseline(v))) == Current(s)) <==> s.mood.Some?
  {
    if s.mood.None? {
      var zero, one := Perform(limits, cfg, half, s, SetBaseline(ZERO)), Perform(limits, cfg, half, s, SetBaseline(Every(1.0)));
      assert ZERO.Get(Warmth) == 0.0 && Every(1.0).Get(Warmth) == 1.0;
      assert Current(zero).vector.Get(Warmth) == 0.0 && Current(one).vector.Get(Warmth) == 1.0;
    }
  }

  /** An evaluation starts from the mood decayed to its time, a manual delta from the mood as it was
      stored; each stores what the clamp predicts, stamped with its own time.  A profile update cuts
      the baseline to its range and stores no mood. */
  lemma PerformIsExact(limits: MoodLimits, cfg: DecayConfig, half: int -> real, s: MoodState, v: MoodVector,
                       who: Committer, now: int, d: Dim)
    ensures var mood := if s.mood.Some? then s.mood.value else Mood(s.baseline, 0);
            var seen := ApplyStateDecay(cfg, half, mood, s.baseline, now).vector;
            var updated := Perform(limits, cfg, half, s, SetBaseline(v));
            && Perform(limits, cfg, half, s, Evaluation(v, now))
               == MoodState(Some(Mood(ClampMoodDelta(limits, seen, v, Core).predictedState, now)), s.baseline)
            && Perform(limits, cfg, half, s, Delta(v, who, now))
               == MoodState(Some(Mood(ClampMoodDelta(limits, mood.vector, v, who).predictedState, now)), s.baseline)
            && updated.mood == s.mood
            && updated.baseline.Get(d)
               == if v.Get(d) < Range(limits, d).0 then Range(limits, d).0
                  else if v.Get(d) > Range(limits, d).1 then Range(limits, d).1 else v.Get(d)
  {
    RangeIsBox(limits, d);
    hide ClampMoodDelta, ApplyStateDecay;
  }

  /** A reset takes each dimension to the value asked for, cut to its range, or to the baseline when
      all the values asked for are zero; the reset mood is fresh, so it has not begun to decay. */
  lemma ResetIsExact(limits: MoodLimits, cfg: DecayConfig, half: int -> real, s: MoodState, v: MoodVector, now: int, d: Dim)
    ensures var after := Perform(limits, cfg, half, s, Reset(v, now));
            var to := if forall e: Dim :: v.Get(e) == 0.0 then s.baseline.Get(d) else v.Get(d);
            && after.baseline == s.baseline && after.mood.Some? && after.mood.value.updatedAt == now
            && after.mood.value.vector.Get(d)
               == if to < Range(limits, d).0 then Range(limits, d).0
                  else if to > Range(limits, d).1 then Range(limits, d).1 else to
  {
    RangeIsBox(limits, d);
    if forall e: Dim :: v.Get(e) == 0.0 {
      SameVector(v, ZERO);
    } else {
      var e: Dim :| v.Get(e) != 0.0;
      assert ZERO.Get(e) == 0.0;
    }
  }

  // ---------------------------------------------------------------- the box over histories

  lemma PeakInBox(limits: MoodLimits, v: MoodVector)
    requires RoundsInside(limits) && UnderPeak(limits, v)
    ensures InBox(limits, v)
  {
    RoundUnits();
    forall d ensures Within(limits, d, v.Get(d)) {
      assert v.Get(d) <= Peak(limits, d);
    }
  }

  /** A reset to the top, and then a delta of nothing. */
  function ToTheTop(limits: MoodLimits): seq<MoodOp>
  {
    [Reset(Top(limits), 1), Delta(ZERO, Core, 2)]
  }

  lemma OneOp(limits: MoodLimits, cfg: DecayConfig, half: int -> real, s: MoodState, op: MoodOp)
    ensures History(limits, cfg, half, s, [op]) == Perform(limits, cfg, half, s, op)
  {
    assert [op][1..] == [];
  }

  lemma ResetReachesTop(limits: MoodLimits, cfg: DecayConfig, half: int -> real)
    ensures Perform(limits, cfg, half, INITIAL, Reset(Top(limits), 1)).mood == Some(Mood(Top(limits), 1))
  {
    TopInBox(limits);
    assert Top(limits).Get(Valence) == 1.0 && ZERO.Get(Valence) == 0.0;
    InBoxIsFixed(limits, Top(limits));
  }

  lemma CommitOfDelta(limits: MoodLimits, cfg: DecayConfig, half: int -> real, s: MoodState, v: MoodVector,
                      who: Committer, now: int)
    ensures Commits(limits, cfg, half, s, Delta(v, who, now)) == ClampMoodDelta(limits, Current(s).vector, v, who)
  {}

  /** A delta of nothing at the top leaves the top, rounded. */
  lemma NothingAtTop(limits: MoodLimits, cfg: DecayConfig, half: int -> real, s: MoodState)
    requires Current(s).vector == Top(limits)
    ensures Current(Perform(limits, cfg, half, s, Delta(ZERO, Core, 2))).vector == RoundVector(Top(limits))
  {
    TopInBox(limits);
    ZeroDeltaStays(limits, Top(limits), Core);
    hide Top, Target, RoundVector, Round, InBox;
    CommitOfDelta(limits, cfg, half, s, ZERO, Core, 2);
  }

  lemma TopIsRounded(limits: MoodLimits, cfg: DecayConfig, half: int -> real)
    ensures Current(History(limits, cfg, half, INITIAL, ToTheTop(limits))).vector == RoundVector(Top(limits))
  {
    hide Top, Perform, RoundVector, Round;
    ResetReachesTop(limits, cfg, half);
    var s1 := Perform(limits, cfg, half, INITIAL, Reset(Top(limits), 1));
    assert ToTheTop(limits)[1..] == [Delta(ZERO, Core, 2)];
    OneOp(limits, cfg, half, s1, Delta(ZERO, Core, 2));
    NothingAtTop(limits, cfg, half, s1);
  }

  /** The mood stays in its box over every history exactly when neither configured maximum
      rounds up.  Otherwise a reset to the top and a delta of nothing already leave it. */
  lemma MoodStaysInBoxIff(limits: MoodLimits, cfg: DecayConfig, half: int -> real)
    ensures (forall ops :: InBox(limits, Current(History(limits, cfg, half, INITIAL, ops)).vector)) <==> RoundsInside(limits)
  {
    hide RoundsInside, Round, RoundVector, Top, History, InBox;
    if RoundsInside(limits) {
      forall ops ensures InBox(limits, Current(History(limits, cfg, half, INITIAL, ops)).vector) {
        ReachableUnderPeak(limits, cfg, half, ops);
        PeakInBox(limits, Current(History(limits, cfg, half, INITIAL, ops)).vector);
      }
    } else {
      TopIsRounded(limits, cfg, half);
      RoundedTopIsOut(limits);
    }
  }

  lemma RoundedTopIsOut(limits: MoodLimits)
    requires !RoundsInside(limits)
    ensures !InBox(limits, RoundVector(Top(limits)))
  {
    var out := RoundVector(Top(limits));
    assert Top(limits).Get(Attachment) == High(limits, Attachment) && Top(limits).Get(Frustration) == High(limits, Frustration);
    assert out.Get(Attachment) == Round(High(limits, Attachment)) && out.Get(Frustration) == Round(High(limits, Frustration));
    assert !(Within(limits, Attachment, out.Get(Attachment)) && Within(limits, Frustration, out.Get(Frustration)));
  }

  lemma InBoxIsFixed(limits: MoodLimits, v: MoodVector)
    requires InBox(limits, v)
    ensures ClampState(limits, v) == v
  {
    forall d ensures ClampState(limits, v).Get(d) == v.Get(d) {
      assert Within(limits, d, v.Get(d));
    }
    SameVector(ClampState(limits, v), v);
  }

  // ---------------------------------------------------------------- the deltas over histories

  /** Whatever came before it, what a delta or an evaluation commits is the change it makes, up to 1e-6. */
  lemma CommitIsTheChange(limits: MoodLimits, cfg: DecayConfig, half: int -> real, s: MoodState, op: MoodOp, d: Dim)
    requires Moves(op)
    ensures Abs(Current(Perform(limits, cfg, half, s, op)).vector.Get(d) - Base(cfg, half, s, op).Get(d)
                - Commits(limits, cfg, half, s, op).clampedDelta.Get(d)) <= MICRO
  {
    hide ClampMoodDelta, Base, Round;
    CommittedDeltaIsTheChange(limits, Base(cfg, half, s, op), op.vector, if op.Delta? then op.who else Core, d);
  }

  /** Everything committed to one dimension over all histories is within its limit. */
  ghost predicate AlwaysWithin(limits: MoodLimits, cfg: DecayConfig, half: int -> real, d: Dim)
  {
    forall ops, op | Moves(op) ::
      Abs(Commits(limits, cfg, half, History(limits, cfg, half, INITIAL, ops), op).clampedDelta.Get(d)) <= Allowed(limits, d)
  }

  lemma WithinAt(limits: MoodLimits, cfg: DecayConfig, half: int -> real, d: Dim, ops: seq<MoodOp>, op: MoodOp)
    requires AlwaysWithin(limits, cfg, half, d) && Moves(op)
    ensures Abs(Commits(limits, cfg, half, History(limits, cfg, half, INITIAL, ops), op).clampedDelta.Get(d)) <= Allowed(limits, d)
  {}

  /** A history that ends with the dimension at its peak. */
  function ToThePeak(limits: MoodLimits, d: Dim): seq<MoodOp>
  {
    if Round(High(limits, d)) <= High(limits, d) then [Reset(Top(limits), 1)] else ToTheTop(limits)
  }

  lemma PeakIsReached(limits: MoodLimits, cfg: DecayConfig, half: int -> real, d: Dim)
    ensures Current(History(limits, cfg, half, INITIAL, ToThePeak(limits, d))).vector.Get(d) == Peak(limits, d)
  {
    assert Top(limits).Get(d) == High(limits, d);
    if Round(High(limits, d)) <= High(limits, d) {
      OneOp(limits, cfg, half, INITIAL, Reset(Top(limits), 1));
      ResetReachesTop(limits, cfg, half);
    } else {
      TopIsRounded(limits, cfg, half);
      assert RoundVector(Top(limits)).Get(d) == Round(High(limits, d));
    }
  }

  lemma PeakIsOver(limits: MoodLimits, d: Dim)
    ensures High(limits, d) <= Peak(limits, d)
  {}

  lemma CommitWithinReach(limits: MoodLimits, cfg: DecayConfig, half: int -> real, ops: seq<MoodOp>, op: MoodOp, d: Dim)
    requires HalfLife(half) && Moves(op)
    ensures Abs(Commits(limits, cfg, half, History(limits, cfg, half, INITIAL, ops), op).clampedDelta.Get(d))
            <= Round(Reach(limits, d, Peak(limits, d)))
  {
    var s := History(limits, cfg, half, INITIAL, ops);
    ReachableUnderPeak(limits, cfg, half, ops);
    BaseUnderPeak(limits, cfg, half, s, op);
    PeakIsOver(limits, d);
    hide Peak, Reach, Round, History, ClampMoodDelta, Base;
    DeltaWithinReach(limits, Base(cfg, half, s, op), op.vector, if op.Delta? then op.who else Core, d, Peak(limits, d));
  }

  lemma KeptWhenReachFits(limits: MoodLimits, cfg: DecayConfig, half: int -> real, d: Dim)
    requires HalfLife(half) && Round(Reach(limits, d, Peak(limits, d))) <= Allowed(limits, d)
    ensures AlwaysWithin(limits, cfg, half, d)
  {
    hide Peak, Reach, Round, Allowed, History, Commits;
    forall ops, op | Moves(op)
      ensures Abs(Commits(limits, cfg, half, History(limits, cfg, half, INITIAL, ops), op).clampedDelta.Get(d))
              <= Allowed(limits, d)
    {
      CommitWithinReach(limits, cfg, half, ops, op, d);
    }
  }

  /** From the peak, asking for all that is allowed downwards commits the whole reach. */
  lemma ReachIsCommittedAtPeak(limits: MoodLimits, cfg: DecayConfig, half: int -> real, d: Dim)
    ensures Abs(Commits(limits, cfg, half, History(limits, cfg, half, INITIAL, ToThePeak(limits, d)),
                        Delta(Down(limits), Core, 3)).clampedDelta.Get(d))
            == Round(Reach(limits, d, Peak(limits, d)))
  {
    hide Peak, Reach, Round, Allowed, History, Commits, ToThePeak, ClampMoodDelta, Down;
    var s := History(limits, cfg, half, INITIAL, ToThePeak(limits, d));
    PeakIsReached(limits, cfg, half, d);
    PeakIsOver(limits, d);
    CommitOfDelta(limits, cfg, half, s, Down(limits), Core, 3);
    ReachIsCommitted(limits, Current(s).vector, d, Peak(limits, d));
    RoundedReachIsPositive(limits, d, Peak(limits, d));
  }

  /** Over every history of updates, resets, deltas and evaluations, each delta committed to a
      dimension is within the per-request limit exactly when the reach from the dimension's peak
      does not round up. */
  lemma HistoryDeltasWithinIff(limits: MoodLimits, cfg: DecayConfig, half: int -> real, d: Dim)
    requires HalfLife(half)
    ensures AlwaysWithin(limits, cfg, half, d) <==> Round(Reach(limits, d, Peak(limits, d))) <= Allowed(limits, d)
  {
    hide Peak, Reach, Round, Allowed, AlwaysWithin, Commits, ToThePeak;
    if Round(Reach(limits, d, Peak(limits, d))) <= Allowed(limits, d) {
      KeptWhenReachFits(limits, cfg, half, d);
    }
    ReachIsCommittedAtPeak(limits, cfg, half, d);
    if AlwaysWithin(limits, cfg, half, d) {
      WithinAt(limits, cfg, half, d, ToThePeak(limits, d), Delta(Down(limits), Core, 3));
    }
  }

  /** When no maximum rounds up, a limit no wider than its dimension is kept over every history
      exactly when it does not round up itself. */
  lemma HistoryKeepsNarrowLimitIff(limits: MoodLimits, cfg: DecayConfig, half: int -> real, d: Dim)
    requires HalfLife(half) && RoundsInside(limits)
    requires 0.0 < limits.perRequest.Get(d) <= High(limits, d) - Low(d)
    ensures AlwaysWithin(limits, cfg, half, d) <==> Round(limits.perRequest.Get(d)) <= limits.perRequest.Get(d)
  {
    RoundUnits();
    assert Peak(limits, d) == High(limits, d);
    HistoryDeltasWithinIff(limits, cfg, half, d);
    NarrowLimitReach(limits, d);
  }
}
