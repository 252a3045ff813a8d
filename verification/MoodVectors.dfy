/** Mood vectors, their box, and six-decimal rounding, over the reals. */
module MoodVectors {

  datatype Dim =
    | Valence | Arousal | Dominance | Energy | Warmth | Concern
    | Curiosity | Playfulness | Attachment | Frustration | Uncertainty

  datatype MoodVector = MoodVector(
    valence: real, arousal: real, dominance: real, energy: real, warmth: real, concern: real,
    curiosity: real, playfulness: real, attachment: real, frustration: real, uncertainty: real)
  {
    function Get(d: Dim): real
    {
      match d
      case Valence => valence
      case Arousal => arousal
      case Dominance => dominance
      case Energy => energy
      case Warmth => warmth
      case Concern => concern
      case Curiosity => curiosity
      case Playfulness => playfulness
      case Attachment => attachment
      case Frustration => frustration
      case Uncertainty => uncertainty
    }
  }

  /** The vector with the given dimensions. */
  function Build(f: Dim -> real): (v: MoodVector)
    ensures forall d :: v.Get(d) == f(d)
  {
    MoodVector(f(Valence), f(Arousal), f(Dominance), f(Energy), f(Warmth), f(Concern),
               f(Curiosity), f(Playfulness), f(Attachment), f(Frustration), f(Uncertainty))
  }

  lemma SameVector(a: MoodVector, b: MoodVector)
    requires forall d :: a.Get(d) == b.Get(d)
    ensures a == b
  {
    assert a.Get(Valence) == b.Get(Valence) && a.Get(Arousal) == b.Get(Arousal) && a.Get(Dominance) == b.Get(Dominance);
    assert a.Get(Energy) == b.Get(Energy) && a.Get(Warmth) == b.Get(Warmth) && a.Get(Concern) == b.Get(Concern);
    assert a.Get(Curiosity) == b.Get(Curiosity) && a.Get(Playfulness) == b.Get(Playfulness);
    assert a.Get(Attachment) == b.Get(Attachment) && a.Get(Frustration) == b.Get(Frustration);
    assert a.Get(Uncertainty) == b.Get(Uncertainty);
  }

  function Times(x: real, factor: real): real
  {
    x * factor
  }

  lemma ProductIsPositive(a: real, b: real)
    requires a >= 0.0 && b >= 0.0
    ensures Times(a, b) >= 0.0
  {}

  lemma TheRestOfIt(gap: real, factor: real)
    ensures Times(gap, factor) + Times(gap, 1.0 - factor) == gap
    ensures Times(-gap, factor) == -Times(gap, factor)
  {}

  /** A fraction of a gap lies between nothing and the gap. */
  lemma Fraction(gap: real, factor: real)
    requires 0.0 <= factor <= 1.0
    ensures gap >= 0.0 ==> 0.0 <= Times(gap, factor) <= gap
    ensures gap < 0.0 ==> gap <= Times(gap, factor) <= 0.0
  {
    hide Times;
    var size := if gap >= 0.0 then gap else -gap;
    ProductIsPositive(size, factor);
    ProductIsPositive(size, 1.0 - factor);
    TheRestOfIt(gap, factor);
    TheRestOfIt(gap, 1.0 - factor);
  }

  const ZERO := MoodVector(0.0, 0.0, 0.0, 0.0, 0.0, 0.0, 0.0, 0.0, 0.0, 0.0, 0.0)

  /** The configured limits; a maximum of zero or less stands for 1. */
  datatype MoodLimits = MoodLimits(
    perRequest: MoodVector, pluginMultiplier: real, attachmentMax: real, frustrationMax: real)

  function Low(d: Dim): real
  {
    if d.Valence? || d.Dominance? then -1.0 else 0.0
  }

  function MaxOrOne(m: real): real
  {
    if m <= 0.0 then 1.0 else m
  }

  function High(cfg: MoodLimits, d: Dim): real
  {
    match d
    case Attachment => MaxOrOne(cfg.attachmentMax)
    case Frustration => MaxOrOne(cfg.frustrationMax)
    case _ => 1.0
  }

  predicate Within(cfg: MoodLimits, d: Dim, x: real)
  {
    Low(d) <= x <= High(cfg, d)
  }

  ghost predicate InBox(cfg: MoodLimits, v: MoodVector)
  {
    forall d :: Within(cfg, d, v.Get(d))
  }

  // ---------------------------------------------------------------- rounding

  const MILLION := 1_000_000.0
  const MICRO := 0.000_001

  /** math.Round(v * 1e6) / 1e6: half away from zero. */
  function Round(v: real): real
  {
    if v >= 0.0 then (v * MILLION + 0.5).Floor as real / MILLION
    else -((-v * MILLION + 0.5).Floor as real / MILLION)
  }

  lemma FloorBetween(x: real)
    ensures x.Floor as real <= x < x.Floor as real + 1.0
  {
  }

  lemma RoundNear(v: real)
    ensures v - MICRO / 2.0 <= Round(v) <= v + MICRO / 2.0
  {
    FloorBetween(v * MILLION + 0.5);
    FloorBetween(-v * MILLION + 0.5);
  }

  lemma RoundMonotone(a: real, b: real)
    requires a <= b
    ensures Round(a) <= Round(b)
  {
    if a >= 0.0 {
      FloorMonotone(a * MILLION + 0.5, b * MILLION + 0.5);
    } else if b < 0.0 {
      FloorMonotone(-b * MILLION + 0.5, -a * MILLION + 0.5);
    } else {
      FloorMonotone(0.5, b * MILLION + 0.5);
      FloorMonotone(0.5, -a * MILLION + 0.5);
    }
  }

  lemma FloorMonotone(a: real, b: real)
    requires a <= b
    ensures a.Floor <= b.Floor
  {
    FloorBetween(a);
    FloorBetween(b);
  }

  lemma RoundOdd(v: real)
    ensures Round(-v) == -Round(v)
  {
  }

  /** Rounding keeps the fixed bounds of the box. */
  lemma RoundUnits()
    ensures Round(0.0) == 0.0 && Round(1.0) == 1.0 && Round(-1.0) == -1.0
  {
    assert (0.5).Floor == 0;
    assert (1_000_000.5).Floor == 1_000_000;
    RoundOdd(1.0);
  }
}
