/** ClampMoodDelta: limits on a proposed change, then on the state, then rounding. */
module MoodClamp {
  import opened MoodVectors

  datatype Committer = Core | Plugin | UserDebug | SystemWriter

  datatype Note = DeltaNote(d: Dim, value: real, bound: real) | StateNote(d: Dim, value: real, bound: real)

  datatype ClampResult = ClampResult(clampedDelta: MoodVector, predictedState: MoodVector)

  function ClampDelta(value: real, limit: real): (r: real)
    ensures limit <= 0.0 ==> r == 0.0
    ensures limit > 0.0 ==> -limit <= r <= limit
  {
    if limit <= 0.0 then 0.0 else if value > limit then limit else if value < -limit then -limit else value
  }

  function ClampTo(x: real, lo: real, hi: real): real
  {
    if x < lo then lo else if x > hi then hi else x
  }

  function Multiplier(cfg: MoodLimits, who: Committer): real
  {
    if who.Plugin? && cfg.pluginMultiplier > 0.0 then cfg.pluginMultiplier else 1.0
  }

  /** multiplyVector */
  function Scale(v: MoodVector, factor: real): (r: MoodVector)
    ensures forall d :: r.Get(d) == Times(v.Get(d), factor)
  {
    Build(d => Times(v.Get(d), factor))
  }

  function Scaled(cfg: MoodLimits, proposed: MoodVector, who: Committer): MoodVector
  {
    Scale(proposed, Multiplier(cfg, who))
  }

  function LimitedDelta(cfg: MoodLimits, scaled: MoodVector): (r: MoodVector)
    ensures forall d :: r.Get(d) == ClampDelta(scaled.Get(d), cfg.perRequest.Get(d))
  {
    Build(d => ClampDelta(scaled.Get(d), cfg.perRequest.Get(d)))
  }

  function ClampState(cfg: MoodLimits, v: MoodVector): (r: MoodVector)
    ensures forall d :: r.Get(d) == ClampTo(v.Get(d), Low(d), High(cfg, d))
  {
    Build(d => ClampTo(v.Get(d), Low(d), High(cfg, d)))
  }

  function Plus(a: MoodVector, b: MoodVector): (r: MoodVector)
    ensures forall d :: r.Get(d) == a.Get(d) + b.Get(d)
  {
    Build(d => a.Get(d) + b.Get(d))
  }

  function Minus(a: MoodVector, b: MoodVector): (r: MoodVector)
    ensures forall d :: r.Get(d) == a.Get(d) - b.Get(d)
  {
    Build(d => a.Get(d) - b.Get(d))
  }

  function RoundVector(v: MoodVector): (r: MoodVector)
    ensures forall d :: r.Get(d) == Round(v.Get(d))
  {
    Build(d => Round(v.Get(d)))
  }

  /** The state before rounding. */
  function Target(cfg: MoodLimits, before: MoodVector, proposed: MoodVector, who: Committer): MoodVector
  {
    ClampState(cfg, Plus(before, LimitedDelta(cfg, Scaled(cfg, proposed, who))))
  }

  function ClampMoodDelta(cfg: MoodLimits, before: MoodVector, proposed: MoodVector, who: Committer): ClampResult
  {
    var target := Target(cfg, before, proposed, who);
    ClampResult(RoundVector(Minus(target, before)), RoundVector(target))
  }

  // ---------------------------------------------------------------- with the shared notes

  class NoteLog {
    var items: seq<Note>

    constructor ()
      ensures items == []
    {
      items := [];
    }

    method Add(note: Note)
      modifies this
      ensures items == old(items) + [note]
    {
      items := items + [note];
    }
  }

  method ClampDimension(d: Dim, value: real, limit: real, log: NoteLog) returns (r: real)
    modifies log
    ensures r == ClampDelta(value, limit)
    ensures log.items == old(log.items) + (if r == value then [] else [DeltaNote(d, value, r)])
  {
    if limit <= 0.0 {
      if value != 0.0 {
        log.Add(DeltaNote(d, value, 0.0));
      }
      return 0.0;
    }
    if value > limit {
      log.Add(DeltaNote(d, value, limit));
      return limit;
    }
    if value < -limit {
      log.Add(DeltaNote(d, value, -limit));
      return -limit;
    }
    return value;
  }

  method ClampStateDimension(d: Dim, value: real, cfg: MoodLimits, log: NoteLog) returns (r: real)
    modifies log
    ensures r == ClampTo(value, Low(d), High(cfg, d))
    ensures log.items == old(log.items) + (if Within(cfg, d, value) then [] else [StateNote(d, value, r)])
  {
    var minValue, maxValue := Low(d), High(cfg, d);
    if value < minValue {
      log.Add(StateNote(d, value, minValue));
      return minValue;
    }
    if value > maxValue {
      log.Add(StateNote(d, value, maxValue));
      return maxValue;
    }
    return value;
  }

  method LimitDelta(cfg: MoodLimits, scaled: MoodVector, log: NoteLog) returns (delta: MoodVector)
    modifies log
    ensures delta == LimitedDelta(cfg, scaled)
    ensures |log.items| >= |old(log.items)|
    ensures |log.items| == |old(log.items)| <==> delta == scaled
  {
    var l := cfg.perRequest;
    var a := ClampDimension(Valence, scaled.valence, l.valence, log);
    var b := ClampDimension(Arousal, scaled.arousal, l.arousal, log);
    var c := ClampDimension(Dominance, scaled.dominance, l.dominance, log);
    var d := ClampDimension(Energy, scaled.energy, l.energy, log);
    var e := ClampDimension(Warmth, scaled.warmth, l.warmth, log);
    var f := ClampDimension(Concern, scaled.concern, l.concern, log);
    var g := ClampDimension(Curiosity, scaled.curiosity, l.curiosity, log);
    var h := ClampDimension(Playfulness, scaled.playfulness, l.playfulness, log);
    var i := ClampDimension(Attachment, scaled.attachment, l.attachment, log);
    var j := ClampDimension(Frustration, scaled.frustration, l.frustration, log);
    var k := ClampDimension(Uncertainty, scaled.uncertainty, l.uncertainty, log);
    delta := MoodVector(a, b, c, d, e, f, g, h, i, j, k);
  }

  method ClampStateInPlace(cfg: MoodLimits, v: MoodVector, log: NoteLog) returns (state: MoodVector)
    modifies log
    ensures state == ClampState(cfg, v)
    ensures |log.items| >= |old(log.items)|
    ensures |log.items| == |old(log.items)| <==> state == v
  {
    state := v;
    var r := ClampStateDimension(Valence, state.valence, cfg, log);
    state := state.(valence := r);
    r := ClampStateDimension(Arousal, state.arousal, cfg, log);
    state := state.(arousal := r);
    r := ClampStateDimension(Dominance, state.dominance, cfg, log);
    state := state.(dominance := r);
    r := ClampStateDimension(Energy, state.energy, cfg, log);
    state := state.(energy := r);
    r := ClampStateDimension(Warmth, state.warmth, cfg, log);
    state := state.(warmth := r);
    r := ClampStateDimension(Concern, state.concern, cfg, log);
    state := state.(concern := r);
    r := ClampStateDimension(Curiosity, state.curiosity, cfg, log);
    state := state.(curiosity := r);
    r := ClampStateDimension(Playfulness, state.playfulness, cfg, log);
    state := state.(playfulness := r);
    r := ClampStateDimension(Attachment, state.attachment, cfg, log);
    state := state.(attachment := r);
    r := ClampStateDimension(Frustration, state.frustration, cfg, log);
    state := state.(frustration := r);
    r := ClampStateDimension(Uncertainty, state.uncertainty, cfg, log);
    state := state.(uncertainty := r);
  }

  /** The notes are empty exactly when nothing was clamped. */
  method ClampWithNotes(cfg: MoodLimits, before: MoodVector, proposed: MoodVector, who: Committer)
    returns (r: ClampResult, log: NoteLog)
    ensures fresh(log)
    ensures r == ClampMoodDelta(cfg, before, proposed, who)
    ensures log.items == [] <==> Target(cfg, before, proposed, who) == Plus(before, Scaled(cfg, proposed, who))
                                 && LimitedDelta(cfg, Scaled(cfg, proposed, who)) == Scaled(cfg, proposed, who)
  {
    log := new NoteLog();
    var scaled := Scaled(cfg, proposed, who);
    var delta := LimitDelta(cfg, scaled, log);
    var predicted := ClampStateInPlace(cfg, Plus(before, delta), log);
    r := ClampResult(RoundVector(Minus(predicted, before)), RoundVector(predicted));
  }

  // ---------------------------------------------------------------- the box

  /** Rounding does not push the two configurable maxima up. */
  predicate RoundsInside(cfg: MoodLimits)
  {
    Round(MaxOrOne(cfg.attachmentMax)) <= MaxOrOne(cfg.attachmentMax)
    && Round(MaxOrOne(cfg.frustrationMax)) <= MaxOrOne(cfg.frustrationMax)
  }

  lemma RoundWithin(cfg: MoodLimits, d: Dim, x: real)
    requires RoundsInside(cfg) && Within(cfg, d, x)
    ensures Within(cfg, d, Round(x))
  {
    RoundUnits();
    RoundMonotone(Low(d), x);
    RoundMonotone(x, High(cfg, d));
  }

  lemma ClampStateInBox(cfg: MoodLimits, v: MoodVector)
    ensures InBox(cfg, ClampState(cfg, v))
  {
    forall d ensures Within(cfg, d, ClampState(cfg, v).Get(d)) {
      assert Low(d) <= High(cfg, d);
    }
  }

  lemma PredictedInBox(cfg: MoodLimits, before: MoodVector, proposed: MoodVector, who: Committer)
    requires RoundsInside(cfg)
    ensures InBox(cfg, ClampMoodDelta(cfg, before, proposed, who).predictedState)
  {
    var target := Target(cfg, before, proposed, who);
    ClampStateInBox(cfg, Plus(before, LimitedDelta(cfg, Scaled(cfg, proposed, who))));
    forall d ensures Within(cfg, d, RoundVector(target).Get(d)) {
      RoundWithin(cfg, d, target.Get(d));
    }
  }

  /** The state at the top of every dimension's range. */
  function Top(cfg: MoodLimits): MoodVector
  {
    Build(d => High(cfg, d))
  }

  function DeltaAt(cfg: MoodLimits, proposed: MoodVector, who: Committer, d: Dim): real
  {
    ClampDelta(Times(proposed.Get(d), Multiplier(cfg, who)), cfg.perRequest.Get(d))
  }

  /** One dimension of the target. */
  lemma TargetAt(cfg: MoodLimits, before: MoodVector, proposed: MoodVector, who: Committer, d: Dim)
    ensures Target(cfg, before, proposed, who).Get(d)
         == ClampTo(before.Get(d) + DeltaAt(cfg, proposed, who, d), Low(d), High(cfg, d))
  {
  }

  lemma NoDelta(cfg: MoodLimits, who: Committer, d: Dim)
    ensures DeltaAt(cfg, ZERO, who, d) == 0.0
  {
    assert ZERO.Get(d) == 0.0;
    assert Times(0.0, Multiplier(cfg, who)) == 0.0;
  }

  /** A zero delta moves no state that is in the box. */
  lemma ZeroDeltaStays(cfg: MoodLimits, v: MoodVector, who: Committer)
    requires InBox(cfg, v)
    ensures Target(cfg, v, ZERO, who) == v
  {
    var t := Target(cfg, v, ZERO, who);
    forall d ensures t.Get(d) == v.Get(d) {
      ZeroDeltaStaysAt(cfg, v, who, d);
    }
    SameVector(t, v);
  }

  lemma ZeroDeltaStaysAt(cfg: MoodLimits, v: MoodVector, who: Committer, d: Dim)
    requires Within(cfg, d, v.Get(d))
    ensures Target(cfg, v, ZERO, who).Get(d) == v.Get(d)
  {
    var x := v.Get(d);
    TargetAt(cfg, v, ZERO, who, d);
    NoDelta(cfg, who, d);
    assert x + 0.0 == x;
  }

  lemma TopInBox(cfg: MoodLimits)
    ensures InBox(cfg, Top(cfg))
  {
    forall d ensures Within(cfg, d, Top(cfg).Get(d)) {
      assert Top(cfg).Get(d) == High(cfg, d);
    }
  }

  /** Every predicted state is in the box exactly when the configured maxima do not round up:
      the state is clamped before it is rounded, and not again. */
  lemma PredictedInBoxIff(cfg: MoodLimits)
    ensures (forall before, proposed, who :: InBox(cfg, ClampMoodDelta(cfg, before, proposed, who).predictedState))
            <==> RoundsInside(cfg)
  {
    if RoundsInside(cfg) {
      forall before, proposed, who ensures InBox(cfg, ClampMoodDelta(cfg, before, proposed, who).predictedState) {
        PredictedInBox(cfg, before, proposed, who);
      }
    } else {
      TopInBox(cfg);
      ZeroDeltaStays(cfg, Top(cfg), Core);
      var out := ClampMoodDelta(cfg, Top(cfg), ZERO, Core).predictedState;
      assert out.Get(Attachment) == Round(High(cfg, Attachment)) && out.Get(Frustration) == Round(High(cfg, Frustration));
      assert !(Within(cfg, Attachment, out.Get(Attachment)) && Within(cfg, Frustration, out.Get(Frustration)));
    }
  }

  // ---------------------------------------------------------------- the committed delta

  function Abs(x: real): real
  {
    if x < 0.0 then -x else x
  }

  /** From a state in the box, clamping the target never moves further than the limited delta. */
  lemma ClampMovesLess(x: real, delta: real, lo: real, hi: real)
    requires lo <= x <= hi
    ensures Abs(ClampTo(x + delta, lo, hi) - x) <= Abs(delta)
  {
  }

  lemma RoundAbs(x: real, limit: real)
    requires Abs(x) <= limit
    ensures Abs(Round(x)) <= Round(limit)
  {
    RoundOdd(x);
    RoundMonotone(Abs(x), limit);
    RoundUnits();
    RoundMonotone(0.0, Abs(x));
  }

  /** From a state in the box, the committed delta of each dimension is within the per-request
      limit rounded to six decimals, and is zero where the limit is zero or less. */
  lemma CommittedDeltaBounded(cfg: MoodLimits, before: MoodVector, proposed: MoodVector, who: Committer, d: Dim)
    requires Within(cfg, d, before.Get(d))
    ensures Abs(ClampMoodDelta(cfg, before, proposed, who).clampedDelta.Get(d)) <= Round(Allowed(cfg, d))
  {
    DeltaCommitted(cfg, before, proposed, who, d);
    MoveBounded(before.Get(d), DeltaAt(cfg, proposed, who, d), Low(d), High(cfg, d), Allowed(cfg, d));
  }

  /** From any state, the committed delta is the change of the state up to 1e-6. */
  lemma CommittedDeltaIsTheChange(cfg: MoodLimits, before: MoodVector, proposed: MoodVector, who: Committer, d: Dim)
    ensures var r := ClampMoodDelta(cfg, before, proposed, who);
            Abs(r.predictedState.Get(d) - before.Get(d) - r.clampedDelta.Get(d)) <= MICRO
  {
    ResultAt(cfg, before, proposed, who, d);
    var target := Target(cfg, before, proposed, who).Get(d);
    RoundNear(target);
    RoundNear(target - before.Get(d));
  }

  lemma ResultAt(cfg: MoodLimits, before: MoodVector, proposed: MoodVector, who: Committer, d: Dim)
    ensures var r := ClampMoodDelta(cfg, before, proposed, who);
            var target := Target(cfg, before, proposed, who).Get(d);
            r.predictedState.Get(d) == Round(target) && r.clampedDelta.Get(d) == Round(target - before.Get(d))
  {
  }

  lemma MoveBounded(x: real, delta: real, lo: real, hi: real, limit: real)
    requires lo <= x <= hi && Abs(delta) <= limit
    ensures Abs(Round(ClampTo(x + delta, lo, hi) - x)) <= Round(limit)
  {
    ClampMovesLess(x, delta, lo, hi);
    RoundAbs(ClampTo(x + delta, lo, hi) - x, limit);
  }

  // ---------------------------------------------------------------- what a proposal comes to

  /** The range of a dimension, the factor of a committer, and the limit of a request, as configured. */
  function Range(cfg: MoodLimits, d: Dim): (real, real)
  {
    (if d in {Valence, Dominance} then -1.0 else 0.0,
     if d == Attachment && cfg.attachmentMax > 0.0 then cfg.attachmentMax
     else if d == Frustration && cfg.frustrationMax > 0.0 then cfg.frustrationMax
     else 1.0)
  }

  /** What is asked of a dimension: the proposal, times the plugins' factor for a plugin. */
  function Asked(cfg: MoodLimits, proposed: MoodVector, who: Committer, d: Dim): real
  {
    if who == Plugin && cfg.pluginMultiplier > 0.0 then proposed.Get(d) * cfg.pluginMultiplier else proposed.Get(d)
  }

  function Gap(x: real, y: real): real
  {
    Abs(x - y)
  }

  /** Where a request may take the value x. */
  predicate MayBe(x: real, limit: real, range: (real, real), y: real)
  {
    range.0 <= y <= range.1 && if limit > 0.0 then -limit <= y - x <= limit else y == x
  }

  /** Of all the places it may be, t is the nearest to the wish. */
  ghost predicate Nearest(x: real, limit: real, range: (real, real), wish: real, t: real)
  {
    MayBe(x, limit, range, t) && forall y :: MayBe(x, limit, range, y) ==> Gap(t, wish) <= Gap(y, wish)
  }

  lemma NearestIsUnique(x: real, limit: real, range: (real, real), wish: real, t: real, u: real)
    requires Nearest(x, limit, range, wish, t) && Nearest(x, limit, range, wish, u)
    ensures t == u
  {
    if t != u {
      var middle := (t + u) / 2.0;
      assert MayBe(x, limit, range, middle);
    }
  }

  lemma RangeIsBox(cfg: MoodLimits, d: Dim)
    ensures Range(cfg, d) == (Low(d), High(cfg, d))
  {}

  lemma AskedIsScaled(cfg: MoodLimits, proposed: MoodVector, who: Committer, d: Dim)
    ensures DeltaAt(cfg, proposed, who, d) == ClampDelta(Asked(cfg, proposed, who, d), cfg.perRequest.Get(d))
  {
    assert Times(proposed.Get(d), 1.0) == proposed.Get(d);
  }

  lemma ClampedIsNearest(x: real, limit: real, range: (real, real), asked: real)
    requires range.0 <= x <= range.1
    ensures Nearest(x, limit, range, x + asked, ClampTo(x + ClampDelta(asked, limit), range.0, range.1))
  {}

  /** From a value in its range, a request takes each dimension as near to what it asks for as the
      limit and the range allow, which is one place only; then the result is rounded. */
  lemma RequestIsMetAsFarAsAllowed(cfg: MoodLimits, before: MoodVector, proposed: MoodVector, who: Committer, d: Dim)
    requires Range(cfg, d).0 <= before.Get(d) <= Range(cfg, d).1
    ensures var r := ClampMoodDelta(cfg, before, proposed, who);
            var x := before.Get(d);
            exists t :: Nearest(x, cfg.perRequest.Get(d), Range(cfg, d), x + Asked(cfg, proposed, who, d), t)
                        && r.predictedState.Get(d) == Round(t) && r.clampedDelta.Get(d) == Round(t - x)
  {
    RangeIsBox(cfg, d);
    AskedIsScaled(cfg, proposed, who, d);
    TargetAt(cfg, before, proposed, who, d);
    ResultAt(cfg, before, proposed, who, d);
    ClampedIsNearest(before.Get(d), cfg.perRequest.Get(d), Range(cfg, d), Asked(cfg, proposed, who, d));
    hide ClampMoodDelta, Target, DeltaAt, ClampDelta, ClampTo, Nearest, Round, Asked, Range;
  }

  /** So a request within its limit that stays in the range is met in full, and a larger one moves
      by the limit in its own direction, or to the end of the range. */
  lemma RequestWithinLimitIsMet(cfg: MoodLimits, before: MoodVector, proposed: MoodVector, who: Committer, d: Dim)
    requires Range(cfg, d).0 <= before.Get(d) <= Range(cfg, d).1 && cfg.perRequest.Get(d) > 0.0
    ensures var r := ClampMoodDelta(cfg, before, proposed, who);
            var (lo, hi) := Range(cfg, d);
            var (x, asked, limit) := (before.Get(d), Asked(cfg, proposed, who, d), cfg.perRequest.Get(d));
            && (-limit <= asked <= limit && lo <= x + asked <= hi ==>
                  r.predictedState.Get(d) == Round(x + asked) && r.clampedDelta.Get(d) == Round(asked))
            && (asked > limit && x + limit <= hi ==>
                  r.predictedState.Get(d) == Round(x + limit) && r.clampedDelta.Get(d) == Round(limit))
            && (asked < -limit && lo <= x - limit ==>
                  r.predictedState.Get(d) == Round(x - limit) && r.clampedDelta.Get(d) == Round(-limit))
            && (asked >= hi - x && limit >= hi - x ==>
                  r.predictedState.Get(d) == Round(hi) && r.clampedDelta.Get(d) == Round(hi - x))
            && (asked <= lo - x && limit >= x - lo ==>
                  r.predictedState.Get(d) == Round(lo) && r.clampedDelta.Get(d) == Round(lo - x))
  {
    RangeIsBox(cfg, d);
    AskedIsScaled(cfg, proposed, who, d);
    TargetAt(cfg, before, proposed, who, d);
    ResultAt(cfg, before, proposed, who, d);
    hide ClampMoodDelta, Target, DeltaAt, Round, Asked, Range, Low, High;
  }

  // ---------------------------------------------------------------- the limit itself

  /** The per-request limit; zero or less allows no change. */
  function Allowed(cfg: MoodLimits, d: Dim): real
  {
    if cfg.perRequest.Get(d) <= 0.0 then 0.0 else cfg.perRequest.Get(d)
  }

  function Least(a: real, b: real): real
  {
    if a < b then a else b
  }

  function Most(a: real, b: real): real
  {
    if a < b then b else a
  }

  /** How far one request can move a dimension that is at most `top`, before rounding: by what is
      allowed or down to the bottom, and back under the maximum in any case. */
  function Reach(cfg: MoodLimits, d: Dim, top: real): real
  {
    Most(top - High(cfg, d), Least(Allowed(cfg, d), top - Low(d)))
  }

  lemma MoveWithin(x: real, delta: real, lo: real, hi: real, top: real, allowed: real)
    requires lo <= x <= top && hi <= top && lo <= hi && Abs(delta) <= allowed
    ensures Abs(ClampTo(x + delta, lo, hi) - x) <= Most(top - hi, Least(allowed, top - lo))
  {}

  lemma MoveAttained(lo: real, hi: real, top: real, allowed: real)
    requires lo <= hi <= top && allowed >= 0.0
    ensures ClampTo(top - allowed, lo, hi) - top == -Most(top - hi, Least(allowed, top - lo))
  {}

  /** The proposal that asks for as much as is allowed, downwards in every dimension. */
  function Down(cfg: MoodLimits): MoodVector
  {
    Build(d => -Allowed(cfg, d))
  }

  lemma DownIsLimited(cfg: MoodLimits, d: Dim)
    ensures DeltaAt(cfg, Down(cfg), Core, d) == -Allowed(cfg, d)
  {
    assert Down(cfg).Get(d) == -Allowed(cfg, d);
    assert Times(-Allowed(cfg, d), 1.0) == -Allowed(cfg, d);
  }

  lemma DeltaAllowed(cfg: MoodLimits, proposed: MoodVector, who: Committer, d: Dim)
    ensures Abs(DeltaAt(cfg, proposed, who, d)) <= Allowed(cfg, d)
  {}

  lemma DeltaCommitted(cfg: MoodLimits, before: MoodVector, proposed: MoodVector, who: Committer, d: Dim)
    ensures ClampMoodDelta(cfg, before, proposed, who).clampedDelta.Get(d)
            == Round(ClampTo(before.Get(d) + DeltaAt(cfg, proposed, who, d), Low(d), High(cfg, d)) - before.Get(d))
  {
    TargetAt(cfg, before, proposed, who, d);
    ResultAt(cfg, before, proposed, who, d);
  }

  lemma BoxIsNotEmpty(cfg: MoodLimits, d: Dim)
    ensures Low(d) <= High(cfg, d)
  {}

  /** From a state up to `top` no request commits more than the reach, rounded. */
  lemma DeltaWithinReach(cfg: MoodLimits, before: MoodVector, proposed: MoodVector, who: Committer, d: Dim, top: real)
    requires Low(d) <= before.Get(d) <= top && High(cfg, d) <= top
    ensures Abs(ClampMoodDelta(cfg, before, proposed, who).clampedDelta.Get(d)) <= Round(Reach(cfg, d, top))
  {
    DeltaCommitted(cfg, before, proposed, who, d);
    DeltaAllowed(cfg, proposed, who, d);
    BoxIsNotEmpty(cfg, d);
    hide ClampMoodDelta, DeltaAt, Round, Allowed, Low, High, ClampTo;
    var x, delta := before.Get(d), DeltaAt(cfg, proposed, who, d);
    MoveWithin(x, delta, Low(d), High(cfg, d), top, Allowed(cfg, d));
    RoundAbs(ClampTo(x + delta, Low(d), High(cfg, d)) - x, Reach(cfg, d, top));
  }

  /** From a state at `top` one request commits all of it. */
  lemma ReachIsCommitted(cfg: MoodLimits, before: MoodVector, d: Dim, top: real)
    requires before.Get(d) == top && High(cfg, d) <= top
    ensures ClampMoodDelta(cfg, before, Down(cfg), Core).clampedDelta.Get(d) == -Round(Reach(cfg, d, top))
  {
    DeltaCommitted(cfg, before, Down(cfg), Core, d);
    DownIsLimited(cfg, d);
    hide ClampMoodDelta, DeltaAt, Round, Down;
    MoveAttained(Low(d), High(cfg, d), top, Allowed(cfg, d));
    RoundOdd(Reach(cfg, d, top));
  }

  lemma RoundedReachIsPositive(cfg: MoodLimits, d: Dim, top: real)
    requires High(cfg, d) <= top
    ensures Round(Reach(cfg, d, top)) >= 0.0
  {
    RoundUnits();
    RoundMonotone(0.0, Reach(cfg, d, top));
  }

  /** Every delta committed from a state in the box is within the limit exactly when what the limit
      lets a request reach does not round up: the delta is limited and then rounded. */
  lemma CommittedDeltaWithinIff(cfg: MoodLimits, d: Dim)
    ensures (forall before, proposed, who :: InBox(cfg, before) ==>
               Abs(ClampMoodDelta(cfg, before, proposed, who).clampedDelta.Get(d)) <= Allowed(cfg, d))
            <==> Round(Reach(cfg, d, High(cfg, d))) <= Allowed(cfg, d)
  {
    hide ClampMoodDelta, Reach, Round, Allowed;
    var top := High(cfg, d);
    if Round(Reach(cfg, d, top)) <= Allowed(cfg, d) {
      forall before, proposed, who | InBox(cfg, before)
        ensures Abs(ClampMoodDelta(cfg, before, proposed, who).clampedDelta.Get(d)) <= Allowed(cfg, d)
      {
        assert Within(cfg, d, before.Get(d));
        DeltaWithinReach(cfg, before, proposed, who, d, top);
      }
    } else {
      TopInBox(cfg);
      assert Top(cfg).Get(d) == top;
      ReachIsCommitted(cfg, Top(cfg), d, top);
      RoundedReachIsPositive(cfg, d, top);
    }
  }

  /** For a limit no wider than the dimension that is when the limit itself does not round up. */
  lemma NarrowLimitReach(cfg: MoodLimits, d: Dim)
    requires 0.0 < cfg.perRequest.Get(d) <= High(cfg, d) - Low(d)
    ensures Round(Reach(cfg, d, High(cfg, d))) <= Allowed(cfg, d)
            <==> Round(cfg.perRequest.Get(d)) <= cfg.perRequest.Get(d)
  {
    assert Reach(cfg, d, High(cfg, d)) == cfg.perRequest.Get(d);
  }

  // ---------------------------------------------------------------- two configurations that round up

  function Every(x: real): MoodVector
  {
    MoodVector(x, x, x, x, x, x, x, x, x, x, x)
  }

  lemma RoundsUp()
    ensures Round(0.000_000_6) == 0.000_001 && Round(0.999_999_6) == 1.0
  {
    assert 0.000_000_6 * MILLION + 0.5 == 1.1 && (1.1).Floor == 1;
    assert 0.999_999_6 * MILLION + 0.5 == 1_000_000.1 && (1_000_000.1).Floor == 1_000_000;
  }

  lemma ProposalIsCut(cfg: MoodLimits, proposed: MoodVector, d: Dim)
    requires 0.0 < cfg.perRequest.Get(d) <= proposed.Get(d)
    ensures DeltaAt(cfg, proposed, Core, d) == cfg.perRequest.Get(d)
  {
    assert Times(proposed.Get(d), 1.0) == proposed.Get(d);
  }

  /** With a limit of 0.0000006 a request for more commits 0.000001. */
  lemma LimitIsExceeded()
    ensures var cfg := MoodLimits(Every(0.000_000_6), 1.0, 1.0, 1.0);
            && RoundsInside(cfg) && InBox(cfg, ZERO)
            && ClampMoodDelta(cfg, ZERO, Every(1.0), Core).clampedDelta.Get(Warmth) == 0.000_001 > cfg.perRequest.Get(Warmth)
  {
    var cfg := MoodLimits(Every(0.000_000_6), 1.0, 1.0, 1.0);
    RoundUnits();
    RoundsUp();
    hide ClampMoodDelta, DeltaAt, Round;
    forall d ensures Within(cfg, d, ZERO.Get(d)) {}
    ProposalIsCut(cfg, Every(1.0), Warmth);
    DeltaCommitted(cfg, ZERO, Every(1.0), Core, Warmth);
  }

  /** A limit wider than its dimension is kept although it rounds up: the dimension ends first. */
  lemma WideLimitIsKept()
    ensures var cfg := MoodLimits(Every(5.000_000_6), 1.0, 1.0, 1.0);
            && Round(cfg.perRequest.Get(Warmth)) > cfg.perRequest.Get(Warmth)
            && forall before, proposed, who :: InBox(cfg, before) ==>
                 Abs(ClampMoodDelta(cfg, before, proposed, who).clampedDelta.Get(Warmth)) <= Allowed(cfg, Warmth)
  {
    var cfg := MoodLimits(Every(5.000_000_6), 1.0, 1.0, 1.0);
    assert 5.000_000_6 * MILLION + 0.5 == 5_000_001.1 && (5_000_001.1).Floor == 5_000_001;
    RoundUnits();
    assert Reach(cfg, Warmth, 1.0) == 1.0;
    hide ClampMoodDelta, Reach;
    CommittedDeltaWithinIff(cfg, Warmth);
  }

  /** With a maximum of 0.9999996 a state at the maximum is kept as 1. */
  lemma MaximumIsExceeded()
    ensures var cfg := MoodLimits(Every(0.1), 1.0, 0.999_999_6, 1.0);
            && InBox(cfg, Top(cfg))
            && ClampMoodDelta(cfg, Top(cfg), ZERO, Core).predictedState.Get(Attachment) == 1.0 > cfg.attachmentMax
  {
    var cfg := MoodLimits(Every(0.1), 1.0, 0.999_999_6, 1.0);
    RoundsUp();
    TopInBox(cfg);
    ZeroDeltaStays(cfg, Top(cfg), Core);
    ResultAt(cfg, Top(cfg), ZERO, Core, Attachment);
    assert Top(cfg).Get(Attachment) == 0.999_999_6;
  }
}
