/** What one update makes of a trace, entry by entry: who stays, with what weight, and who is cut. */
module CauseEntries {
  import opened MoodVectors
  import opened CauseTrace

  // ---------------------------------------------------------------- who wants to be in the new trace

  function Least(cfg: TraceConfig): real
  {
    if cfg.minWeight > 0.0 then cfg.minWeight else 0.05
  }

  function Room(cfg: TraceConfig): nat
  {
    if cfg.maxItems > 0 then cfg.maxItems else 5
  }

  /** The weight an entry has left: halved over its age if there is a half-life and a past stamp. */
  function Left(cfg: TraceConfig, half: int -> real, y: Cause, now: int): real
  {
    if cfg.halfLifeSeconds > 0 && y.occurredAt != 0 && y.occurredAt < now
    then y.weight * half(now - y.occurredAt) else y.weight
  }

  function Unit(x: real): real
  {
    if 0.0 <= x <= 1.0 then x else if x > 1.0 then 1.0 else 0.0
  }

  /** The weight a finding comes with, and whether it is taken up. */
  function Gravity(finding: Finding): real
  {
    Unit(finding.significance * finding.confidence)
  }

  predicate TakenUp(cfg: TraceConfig, finding: Finding)
  {
    finding.hasAppraisal && finding.code != "" && Gravity(finding) >= Least(cfg)
  }

  /** An entry of another kind that is still heavy enough. */
  ghost predicate Survives(cfg: TraceConfig, half: int -> real, prior: seq<Cause>, finding: Finding, now: int, e: Cause)
  {
    exists y :: y in prior && Left(cfg, half, y, now) >= Least(cfg)
                && !(TakenUp(cfg, finding) && y.kind == finding.code)
                && e == y.(weight := Left(cfg, half, y, now))
  }

  /** The finding's entry, together with what is left of an entry of its kind. */
  ghost predicate Renews(cfg: TraceConfig, half: int -> real, prior: seq<Cause>, finding: Finding, now: int, e: Cause)
  {
    && TakenUp(cfg, finding)
    && exists y :: y in prior && y.kind == finding.code && Left(cfg, half, y, now) >= Least(cfg)
                   && e == Cause(finding.code, finding.summary,
                                 Unit(0.55 * Left(cfg, half, y, now) + Gravity(finding)), finding.confidence, now)
  }

  /** The finding's entry when nothing of its kind is left. */
  ghost predicate Arrives(cfg: TraceConfig, half: int -> real, prior: seq<Cause>, finding: Finding, now: int, e: Cause)
  {
    && TakenUp(cfg, finding)
    && (forall y :: y in prior && y.kind == finding.code ==> Left(cfg, half, y, now) < Least(cfg))
    && e == Cause(finding.code, finding.summary, Gravity(finding), finding.confidence, now)
  }

  ghost predicate Wanted(cfg: TraceConfig, half: int -> real, prior: seq<Cause>, finding: Finding, now: int, e: Cause)
  {
    || Survives(cfg, half, prior, finding, now, e)
    || Renews(cfg, half, prior, finding, now, e)
    || Arrives(cfg, half, prior, finding, now, e)
  }

  // ---------------------------------------------------------------- decay and merge, entry by entry

  lemma FadesTo(cfg: TraceConfig, half: int -> real, y: Cause, now: int)
    ensures Fade(cfg, half, y, now) == y.(weight := Left(cfg, half, y, now))
  {}

  lemma SameConstants(cfg: TraceConfig, finding: Finding)
    ensures Least(cfg) == MinWeight(cfg) && Room(cfg) == MaxItems(cfg)
    ensures Gravity(finding) == Weight(finding) && (TakenUp(cfg, finding) <==> Admits(cfg, finding))
  {}

  lemma {:induction false} FadedEntries(cfg: TraceConfig, half: int -> real, prior: seq<Cause>, now: int, e: Cause)
    ensures e in Faded(cfg, half, prior, now)
            <==> exists y :: y in prior && Left(cfg, half, y, now) >= Least(cfg) && e == y.(weight := Left(cfg, half, y, now))
    decreases |prior|
  {
    if prior != [] {
      var init, last := prior[..|prior| - 1], prior[|prior| - 1];
      assert prior == init + [last];
      FadedEntries(cfg, half, init, now, e);
      FadesTo(cfg, half, last, now);
      hide Fade, Left;
    }
  }

  lemma {:induction false} FadedKinds(cfg: TraceConfig, half: int -> real, prior: seq<Cause>, now: int)
    requires DistinctKinds(prior)
    ensures DistinctKinds(Faded(cfg, half, prior, now))
    decreases |prior|
  {
    if prior != [] {
      var init, last := prior[..|prior| - 1], prior[|prior| - 1];
      FadedKinds(cfg, half, init, now);
      FadesTo(cfg, half, last, now);
      var rest := Faded(cfg, half, init, now);
      forall i | 0 <= i < |rest| ensures rest[i].kind != last.kind {
        FadedEntries(cfg, half, init, now, rest[i]);
        var y :| y in init && rest[i] == y.(weight := Left(cfg, half, y, now));
        var k :| 0 <= k < |init| && init[k] == y;
        assert prior[k] == y;
      }
    }
  }

  lemma MergesTo(item: Cause, incoming: Cause)
    requires item.kind == incoming.kind
    ensures MergedItem(item, incoming) == incoming.(weight := Unit(0.55 * item.weight + incoming.weight))
  {}

  /** One entry of the incoming kind at most, and it absorbs the incoming one. */
  lemma {:induction false} MergedEntries(items: seq<Cause>, incoming: Cause, e: Cause)
    requires DistinctKinds(items) && incoming.kind != ""
    ensures e in Merged(items, incoming)
            <==> || (e in items && e.kind != incoming.kind)
                 || (exists y :: y in items && y.kind == incoming.kind
                                 && e == incoming.(weight := Unit(0.55 * y.weight + incoming.weight)))
                 || ((forall y :: y in items ==> y.kind != incoming.kind) && e == incoming)
    decreases |items|
  {
    if items != [] {
      var head, tail := items[0], items[1..];
      assert items == [head] + tail;
      assert DistinctKinds(tail);
      if head.kind == incoming.kind {
        MergesTo(head, incoming);
        forall y | y in tail ensures y.kind != incoming.kind {
          var k :| 0 <= k < |tail| && tail[k] == y;
          assert items[k + 1] == y && items[0] == head;
        }
      } else {
        MergedEntries(tail, incoming, e);
      }
      hide MergedItem, Unit;
    }
  }

  /** The entries before sorting are exactly those that want to be in. */
  lemma CandidatesAreWanted(cfg: TraceConfig, half: int -> real, prior: seq<Cause>, finding: Finding, now: int, e: Cause)
    requires Plausible(prior)
    ensures e in Candidates(cfg, half, prior, finding, now) <==> Wanted(cfg, half, prior, finding, now, e)
  {
    SameConstants(cfg, finding);
    var faded := Faded(cfg, half, prior, now);
    FadedKinds(cfg, half, prior, now);
    FadedEntries(cfg, half, prior, now, e);
    if TakenUp(cfg, finding) {
      MergedEntries(faded, Incoming(finding, now), e);
      hide Left, Unit, Gravity, Least, Faded, Merged, TakenUp;
      forall y ensures y in faded <==> Fades(cfg, half, prior, now, y) {
        FadedEntries(cfg, half, prior, now, y);
      }
      MergedIsWanted(cfg, half, prior, finding, now, faded, e);
    }
  }

  ghost predicate Fades(cfg: TraceConfig, half: int -> real, prior: seq<Cause>, now: int, e: Cause)
  {
    exists y :: y in prior && Left(cfg, half, y, now) >= Least(cfg) && e == y.(weight := Left(cfg, half, y, now))
  }

  lemma MergedIsWanted(cfg: TraceConfig, half: int -> real, prior: seq<Cause>, finding: Finding, now: int,
                       faded: seq<Cause>, e: Cause)
    requires TakenUp(cfg, finding) && forall y :: y in faded <==> Fades(cfg, half, prior, now, y)
    ensures (|| (e in faded && e.kind != finding.code)
             || (exists y :: y in faded && y.kind == finding.code
                   && e == Cause(finding.code, finding.summary, Unit(0.55 * y.weight + Gravity(finding)), finding.confidence, now))
             || ((forall y :: y in faded ==> y.kind != finding.code)
                 && e == Cause(finding.code, finding.summary, Gravity(finding), finding.confidence, now)))
            <==> Wanted(cfg, half, prior, finding, now, e)
  {
    hide Left, Unit, Gravity, Least;
    forall y | y in prior && Left(cfg, half, y, now) >= Least(cfg) ensures y.(weight := Left(cfg, half, y, now)) in faded {
      assert Fades(cfg, half, prior, now, y.(weight := Left(cfg, half, y, now)));
    }
  }

  // ---------------------------------------------------------------- the new trace

  predicate Lighter(e: Cause, kept: Cause)
  {
    e.weight < kept.weight || (e.weight == kept.weight && e.occurredAt <= kept.occurredAt)
  }

  /** An update of a plausible trace holds nothing but entries that want to be in, each once; it
      holds all of them unless it is full, and then every entry left out is at most as heavy as each
      entry kept, and no newer if as heavy. */
  lemma UpdateIsExact(cfg: TraceConfig, half: int -> real, prior: seq<Cause>, finding: Finding, now: int)
    requires Halving(half) && Plausible(prior)
    ensures var next := UpdatedTrace(cfg, half, prior, finding, now);
            && DistinctKinds(next)
            && |next| <= Room(cfg)
            && (forall e :: e in next ==> Wanted(cfg, half, prior, finding, now, e))
            && (forall e :: Wanted(cfg, half, prior, finding, now, e) ==>
                  e in next || (|next| == Room(cfg) && forall kept :: kept in next ==> Lighter(e, kept)))
            && (forall i, j :: 0 <= i < j < |next| ==> Lighter(next[j], next[i]))
  {
    hide Candidates, UpdatedTrace, Wanted, DistinctKinds;
    SameConstants(cfg, finding);
    UpdateKeepsTrace(cfg, half, prior, finding, now);
    var next := UpdatedTrace(cfg, half, prior, finding, now);
    forall e | e in next ensures Wanted(cfg, half, prior, finding, now, e) {
      CandidatesAreWanted(cfg, half, prior, finding, now, e);
    }
    forall e | Wanted(cfg, half, prior, finding, now, e)
      ensures e in next || (|next| == Room(cfg) && forall kept :: kept in next ==> Lighter(e, kept))
    {
      CandidatesAreWanted(cfg, half, prior, finding, now, e);
    }
  }

  /** So a cause that is still heavy enough and that the finding does not renew keeps its entry,
      unless the trace is full of entries at least as heavy. */
  lemma HeavyCauseStays(cfg: TraceConfig, half: int -> real, prior: seq<Cause>, finding: Finding, now: int, y: Cause)
    requires Halving(half) && Plausible(prior) && y in prior
    requires Left(cfg, half, y, now) >= Least(cfg) && (TakenUp(cfg, finding) ==> y.kind != finding.code)
    ensures var next := UpdatedTrace(cfg, half, prior, finding, now);
            var e := y.(weight := Left(cfg, half, y, now));
            e in next || (|next| == Room(cfg) && forall kept :: kept in next ==> Lighter(e, kept))
  {
    hide UpdatedTrace, Left, Least, TakenUp, DistinctKinds;
    UpdateIsExact(cfg, half, prior, finding, now);
    assert Survives(cfg, half, prior, finding, now, y.(weight := Left(cfg, half, y, now)));
  }

  /** A finding that is taken up has its entry, with what is left of the cause it renews. */
  lemma FindingIsEntered(cfg: TraceConfig, half: int -> real, prior: seq<Cause>, finding: Finding, now: int)
    returns (e: Cause)
    requires Halving(half) && Plausible(prior) && TakenUp(cfg, finding)
    ensures e == Cause(finding.code, finding.summary, e.weight, finding.confidence, now)
    ensures forall y :: y in prior && y.kind == finding.code ==>
              e.weight == if Left(cfg, half, y, now) >= Least(cfg) then Unit(0.55 * Left(cfg, half, y, now) + Gravity(finding))
                          else Gravity(finding)
    ensures (forall y :: y in prior ==> y.kind != finding.code) ==> e.weight == Gravity(finding)
    ensures var next := UpdatedTrace(cfg, half, prior, finding, now);
            e in next || (|next| == Room(cfg) && forall kept :: kept in next ==> Lighter(e, kept))
  {
    hide UpdatedTrace, Left, Least, TakenUp, Gravity, Unit;
    UpdateIsExact(cfg, half, prior, finding, now);
    e := Cause(finding.code, finding.summary, Gravity(finding), finding.confidence, now);
    if y :| y in prior && y.kind == finding.code && Left(cfg, half, y, now) >= Least(cfg) {
      e := e.(weight := Unit(0.55 * Left(cfg, half, y, now) + Gravity(finding)));
      assert Renews(cfg, half, prior, finding, now, e);
      var i :| 0 <= i < |prior| && prior[i] == y;
      forall z | z in prior && z.kind == finding.code ensures z == y {
        var j :| 0 <= j < |prior| && prior[j] == z;
      }
    } else {
      assert Arrives(cfg, half, prior, finding, now, e);
    }
  }
}
