/** The bounded, sorted list of what currently moves the mood. */
module CauseTrace {
  import opened MoodVectors

  datatype Cause = Cause(kind: string, summary: string, weight: real, confidence: real, occurredAt: int)

  /** A minimum of zero or less stands for 0.05, a size of zero or less for 5. */
  datatype TraceConfig = TraceConfig(minWeight: real, maxItems: int, halfLifeSeconds: int)

  /** The evaluator's finding; `code` may be empty. */
  datatype Finding = Finding(hasAppraisal: bool, significance: real, confidence: real, code: string, summary: string)

  function MinWeight(cfg: TraceConfig): (m: real)
    ensures m > 0.0
  {
    if cfg.minWeight <= 0.0 then 0.05 else cfg.minWeight
  }

  function MaxItems(cfg: TraceConfig): (n: nat)
    ensures n > 0
  {
    if cfg.maxItems <= 0 then 5 else cfg.maxItems
  }

  function Clamp01(x: real): (r: real)
    ensures 0.0 <= r <= 1.0
  {
    if x < 0.0 then 0.0 else if x > 1.0 then 1.0 else x
  }

  // ---------------------------------------------------------------- decay

  function Fade(cfg: TraceConfig, half: int -> real, item: Cause, now: int): Cause
  {
    if cfg.halfLifeSeconds > 0 && item.occurredAt != 0 && now > item.occurredAt
    then item.(weight := Times(item.weight, half(now - item.occurredAt)))
    else item
  }

  function Faded(cfg: TraceConfig, half: int -> real, prior: seq<Cause>, now: int): seq<Cause>
  {
    if prior == [] then []
    else
      var item := Fade(cfg, half, prior[|prior| - 1], now);
      var rest := Faded(cfg, half, prior[..|prior| - 1], now);
      if item.weight < MinWeight(cfg) then rest else rest + [item]
  }

  method DecayTrace(cfg: TraceConfig, half: int -> real, prior: seq<Cause>, now: int) returns (out: seq<Cause>)
    ensures out == Faded(cfg, half, prior, now)
  {
    out := [];
    for i := 0 to |prior|
      invariant out == Faded(cfg, half, prior[..i], now)
    {
      assert prior[..i + 1][..i] == prior[..i];
      var item := prior[i];
      if cfg.halfLifeSeconds > 0 && item.occurredAt != 0 && now > item.occurredAt {
        item := item.(weight := Times(item.weight, half(now - item.occurredAt)));
      }
      if item.weight < MinWeight(cfg) {
        continue;
      }
      out := out + [item];
    }
    assert prior[..|prior|] == prior;
  }

  // ---------------------------------------------------------------- merge

  function MergedItem(item: Cause, incoming: Cause): Cause
  {
    incoming.(kind := item.kind, weight := Clamp01(item.weight * 0.55 + incoming.weight))
  }

  /** The first entry of the incoming kind absorbs it; without one it is appended. */
  function Merged(items: seq<Cause>, incoming: Cause): seq<Cause>
  {
    if items == [] then [incoming]
    else if items[0].kind != "" && items[0].kind == incoming.kind then [MergedItem(items[0], incoming)] + items[1..]
    else [items[0]] + Merged(items[1..], incoming)
  }

  predicate SameKind(item: Cause, incoming: Cause)
  {
    item.kind != "" && item.kind == incoming.kind
  }

  /** The scan passes over the entries of other kinds. */
  lemma {:induction false} MergedSkips(items: seq<Cause>, incoming: Cause, i: nat)
    requires i <= |items| && forall k :: 0 <= k < i ==> !SameKind(items[k], incoming)
    ensures Merged(items, incoming) == items[..i] + Merged(items[i..], incoming)
    decreases i
  {
    if i == 0 {
      assert items[0..] == items;
    } else {
      assert !SameKind(items[0], incoming);
      MergedSkips(items[1..], incoming, i - 1);
      assert items[1..][i - 1..] == items[i..];
      assert [items[0]] + items[1..][..i - 1] == items[..i];
    }
  }

  method MergeCause(items: seq<Cause>, incoming: Cause) returns (out: seq<Cause>)
    ensures out == Merged(items, incoming)
  {
    for i := 0 to |items|
      invariant forall k :: 0 <= k < i ==> !SameKind(items[k], incoming)
    {
      if items[i].kind != "" && items[i].kind == incoming.kind {
        MergedSkips(items, incoming, i);
        out := items[i := items[i].(summary := incoming.summary, confidence := incoming.confidence,
                                    occurredAt := incoming.occurredAt,
                                    weight := Clamp01(items[i].weight * 0.55 + incoming.weight))];
        assert items[i..][1..] == items[i + 1..];
        return;
      }
    }
    MergedSkips(items, incoming, |items|);
    out := items + [incoming];
  }

  // ---------------------------------------------------------------- stable sort

  /** The comparison of the sort: heavier first, later first among equals. */
  predicate Before(x: Cause, y: Cause)
  {
    x.weight > y.weight || (x.weight == y.weight && x.occurredAt > y.occurredAt)
  }

  function Insert(sorted: seq<Cause>, x: Cause): (r: seq<Cause>)
    ensures |r| == |sorted| + 1
  {
    if sorted == [] then [x]
    else
      var last := sorted[|sorted| - 1];
      if Before(x, last) then Insert(sorted[..|sorted| - 1], x) + [last] else sorted + [x]
  }

  function StableSort(items: seq<Cause>): (r: seq<Cause>)
    ensures |r| == |items|
  {
    if items == [] then [] else Insert(StableSort(items[..|items| - 1]), items[|items| - 1])
  }

  lemma {:induction false} InsertAt(base: seq<Cause>, x: Cause, j: nat)
    requires j <= |base|
    requires forall k :: j <= k < |base| ==> Before(x, base[k])
    requires j > 0 ==> !Before(x, base[j - 1])
    ensures Insert(base, x) == base[..j] + [x] + base[j..]
    decreases |base|
  {
    if j < |base| {
      var init := base[..|base| - 1];
      InsertAt(init, x, j);
      assert init[..j] == base[..j] && init[j..] + [base[|base| - 1]] == base[j..];
    } else {
      assert base[..j] == base;
      assert base[j..] == [];
    }
  }

  /** One insertion: entry `i` moves left past every entry it comes before. */
  method InsertInPlace(a: array<Cause>, i: nat)
    requires i < a.Length
    modifies a
    ensures a[..i + 1] == Insert(old(a[..i]), old(a[i]))
    ensures a[i + 1..] == old(a[i + 1..])
  {
    ghost var base := a[..i];
    var x := a[i];
    var j := i;
    while j > 0 && Before(x, a[j - 1])
      invariant 0 <= j <= i
      invariant a[j] == x
      invariant forall k :: 0 <= k < j ==> a[k] == base[k]
      invariant forall k :: j < k <= i ==> a[k] == base[k - 1]
      invariant forall k :: i < k < a.Length ==> a[k] == old(a[k])
      invariant forall k :: j <= k < i ==> Before(x, base[k])
    {
      a[j - 1], a[j] := a[j], a[j - 1];
      j := j - 1;
    }
    InsertAt(base, x, j);
    assert a[..i + 1] == base[..j] + [x] + base[j..];
  }

  method SortInPlace(a: array<Cause>)
    modifies a
    ensures a[..] == StableSort(old(a[..]))
  {
    ghost var was := a[..];
    for i := 0 to a.Length
      invariant a[..i] == StableSort(was[..i])
      invariant a[i..] == was[i..]
    {
      assert a[i] == a[i..][0] == was[i];
      assert was[..i + 1][..i] == was[..i];
      ghost var rest := a[i..];
      InsertInPlace(a, i);
      assert a[i + 1..] == rest[1..];
    }
    assert a[..] == a[..a.Length] && was == was[..a.Length];
  }

  ghost predicate Sorted(s: seq<Cause>)
  {
    forall i, j :: 0 <= i < j < |s| ==> !Before(s[j], s[i])
  }

  lemma {:induction false} InsertSorted(s: seq<Cause>, x: Cause)
    requires Sorted(s)
    ensures Sorted(Insert(s, x))
    ensures forall y :: y in Insert(s, x) <==> y in s || y == x
    decreases |s|
  {
    if s != [] {
      var last := s[|s| - 1];
      var init := s[..|s| - 1];
      assert forall y :: y in s <==> y in init || y == last;
      if Before(x, last) {
        InsertSorted(init, x);
        var r := Insert(init, x);
        forall i | 0 <= i < |r| ensures !Before(last, r[i]) {
          assert r[i] in r;
          if r[i] != x {
            var k :| 0 <= k < |init| && init[k] == r[i];
          }
        }
      }
    }
  }

  lemma {:induction false} StableSortSorts(items: seq<Cause>)
    ensures Sorted(StableSort(items))
    ensures forall y :: y in StableSort(items) <==> y in items
    decreases |items|
  {
    if items != [] {
      var init := items[..|items| - 1];
      StableSortSorts(init);
      InsertSorted(StableSort(init), items[|items| - 1]);
      assert forall y :: y in items <==> y in init || y == items[|items| - 1];
    }
  }

  /** The entries of one rank, in order. */
  function OfRank(s: seq<Cause>, weight: real, at: int): seq<Cause>
  {
    if s == [] then []
    else
      var rest := OfRank(s[..|s| - 1], weight, at);
      var last := s[|s| - 1];
      if last.weight == weight && last.occurredAt == at then rest + [last] else rest
  }

  lemma {:induction false} InsertKeepsRank(s: seq<Cause>, x: Cause, weight: real, at: int)
    ensures OfRank(Insert(s, x), weight, at)
         == OfRank(s, weight, at) + (if x.weight == weight && x.occurredAt == at then [x] else [])
    decreases |s|
  {
    if s == [] {
      assert [x][..0] == [];
    } else {
      var last := s[|s| - 1];
      var init := s[..|s| - 1];
      if Before(x, last) {
        InsertKeepsRank(init, x, weight, at);
        assert (Insert(init, x) + [last])[..|s|] == Insert(init, x);
      } else {
        assert (s + [x])[..|s|] == s;
      }
    }
  }

  /** The sort is stable and loses nothing: entries of equal rank keep their order. */
  lemma {:induction false} StableSortKeepsRanks(items: seq<Cause>, weight: real, at: int)
    ensures OfRank(StableSort(items), weight, at) == OfRank(items, weight, at)
    decreases |items|
  {
    if items != [] {
      StableSortKeepsRanks(items[..|items| - 1], weight, at);
      InsertKeepsRank(StableSort(items[..|items| - 1]), items[|items| - 1], weight, at);
    }
  }

  // ---------------------------------------------------------------- how often a kind occurs

  function KindCount(s: seq<Cause>, kind: string): nat
  {
    if s == [] then 0 else KindCount(s[..|s| - 1], kind) + (if s[|s| - 1].kind == kind then 1 else 0)
  }

  ghost predicate DistinctKinds(s: seq<Cause>)
  {
    forall i, j :: 0 <= i < j < |s| ==> s[i].kind != s[j].kind
  }

  lemma {:induction false} CountAppend(s: seq<Cause>, t: seq<Cause>, kind: string)
    ensures KindCount(s + t, kind) == KindCount(s, kind) + KindCount(t, kind)
    decreases |t|
  {
    if t == [] {
      assert s + t == s;
    } else {
      assert (s + t)[..|s + t| - 1] == s + t[..|t| - 1];
      CountAppend(s, t[..|t| - 1], kind);
    }
  }

  lemma {:induction false} CountMember(s: seq<Cause>, i: nat)
    requires i < |s|
    ensures KindCount(s, s[i].kind) >= 1
    decreases |s|
  {
    if i < |s| - 1 {
      CountMember(s[..|s| - 1], i);
    }
  }

  lemma {:induction false} CountAbsent(s: seq<Cause>, kind: string)
    ensures KindCount(s, kind) == 0 <==> forall y :: y in s ==> y.kind != kind
    decreases |s|
  {
    if s != [] {
      CountAbsent(s[..|s| - 1], kind);
      assert forall y :: y in s <==> y in s[..|s| - 1] || y == s[|s| - 1];
    }
  }

  lemma {:induction false} DistinctIffCounts(s: seq<Cause>)
    ensures DistinctKinds(s) <==> forall kind :: KindCount(s, kind) <= 1
    decreases |s|
  {
    if s != [] {
      DistinctIffCounts(s[..|s| - 1]);
      if DistinctKinds(s) {
        CountsOfDistinct(s, s[..|s| - 1]);
      } else {
        RepeatedKind(s);
      }
    }
  }

  lemma CountsOfDistinct(s: seq<Cause>, init: seq<Cause>)
    requires s != [] && DistinctKinds(s) && init == s[..|s| - 1]
    requires DistinctKinds(init) ==> forall kind :: KindCount(init, kind) <= 1
    ensures forall kind :: KindCount(s, kind) <= 1
  {
    var last := s[|s| - 1];
    forall y | y in init ensures y.kind != last.kind {
      var i :| 0 <= i < |init| && init[i] == y;
    }
    CountAbsent(init, last.kind);
    assert DistinctKinds(init);
    forall kind ensures KindCount(s, kind) <= 1 {
      assert KindCount(init, kind) <= 1;
    }
  }

  lemma RepeatedKind(s: seq<Cause>)
    requires !DistinctKinds(s)
    ensures exists kind :: KindCount(s, kind) > 1
  {
    var i, j :| 0 <= i < j < |s| && s[i].kind == s[j].kind;
    var kind := s[i].kind;
    CountMember(s[..j], i);
    CountMember(s[j..], 0);
    CountAppend(s[..j], s[j..], kind);
    assert s[..j] + s[j..] == s;
    assert KindCount(s, kind) > 1;
  }

  lemma CountOne(s: seq<Cause>, x: Cause, kind: string)
    ensures KindCount(s + [x], kind) == KindCount(s, kind) + (if x.kind == kind then 1 else 0)
  {
    assert (s + [x])[..|s|] == s;
  }

  lemma {:induction false} InsertCount(s: seq<Cause>, x: Cause, kind: string)
    ensures KindCount(Insert(s, x), kind) == KindCount(s, kind) + (if x.kind == kind then 1 else 0)
    decreases |s|
  {
    if s == [] {
      CountOne([], x, kind);
      assert [] + [x] == [x];
    } else {
      var init, last := s[..|s| - 1], s[|s| - 1];
      assert s == init + [last];
      if Before(x, last) {
        InsertCount(init, x, kind);
        CountOne(init, last, kind);
        CountOne(Insert(init, x), last, kind);
      } else {
        CountOne(s, x, kind);
      }
    }
  }

  lemma {:induction false} SortCount(items: seq<Cause>, kind: string)
    ensures KindCount(StableSort(items), kind) == KindCount(items, kind)
    decreases |items|
  {
    if items != [] {
      SortCount(items[..|items| - 1], kind);
      InsertCount(StableSort(items[..|items| - 1]), items[|items| - 1], kind);
    }
  }

  // ---------------------------------------------------------------- the update

  function Weight(finding: Finding): real
  {
    Clamp01(Times(finding.significance, finding.confidence))
  }

  predicate Admits(cfg: TraceConfig, finding: Finding)
  {
    finding.hasAppraisal && finding.code != "" && Weight(finding) >= MinWeight(cfg)
  }

  function Incoming(finding: Finding, now: int): Cause
  {
    Cause(finding.code, finding.summary, Weight(finding), finding.confidence, now)
  }

  /** The entries before sorting and cutting. */
  function Candidates(cfg: TraceConfig, half: int -> real, prior: seq<Cause>, finding: Finding, now: int): seq<Cause>
  {
    var faded := Faded(cfg, half, prior, now);
    if Admits(cfg, finding) then Merged(faded, Incoming(finding, now)) else faded
  }

  function UpdatedTrace(cfg: TraceConfig, half: int -> real, prior: seq<Cause>, finding: Finding, now: int): seq<Cause>
  {
    var sorted := StableSort(Candidates(cfg, half, prior, finding, now));
    if |sorted| > MaxItems(cfg) then sorted[..MaxItems(cfg)] else sorted
  }

  method UpdateCauseTrace(cfg: TraceConfig, half: int -> real, prior: seq<Cause>, finding: Finding, now: int)
    returns (next: seq<Cause>)
    ensures next == UpdatedTrace(cfg, half, prior, finding, now)
  {
    next := DecayTrace(cfg, half, prior, now);
    if finding.hasAppraisal {
      var weight := Clamp01(Times(finding.significance, finding.confidence));
      if finding.code != "" && weight >= MinWeight(cfg) {
        next := MergeCause(next, Cause(finding.code, finding.summary, weight, finding.confidence, now));
      }
    }
    var a := new Cause[|next|](i requires 0 <= i < |next| => next[i]);
    assert a[..] == next;
    SortInPlace(a);
    next := a[..];
    if |next| > MaxItems(cfg) {
      next := next[..MaxItems(cfg)];
    }
  }

  /** What a stored trace promises. */
  ghost predicate TraceOk(cfg: TraceConfig, s: seq<Cause>)
  {
    && DistinctKinds(s)
    && (forall y :: y in s ==> y.kind != "" && MinWeight(cfg) <= y.weight <= 1.0)
    && Sorted(s)
    && |s| <= MaxItems(cfg)
  }

  /** What the update needs of the old one. */
  ghost predicate Plausible(s: seq<Cause>)
  {
    DistinctKinds(s) && forall y :: y in s ==> y.kind != "" && 0.0 <= y.weight <= 1.0
  }

  ghost predicate Halving(half: int -> real)
  {
    forall t :: t >= 0 ==> 0.0 <= half(t) <= 1.0
  }

  lemma FadeWeight(cfg: TraceConfig, half: int -> real, item: Cause, now: int)
    requires Halving(half) && 0.0 <= item.weight <= 1.0
    ensures 0.0 <= Fade(cfg, half, item, now).weight <= item.weight
  {
    if cfg.halfLifeSeconds > 0 && item.occurredAt != 0 && now > item.occurredAt {
      Fraction(item.weight, half(now - item.occurredAt));
    }
  }

  lemma {:induction false} FadedOk(cfg: TraceConfig, half: int -> real, prior: seq<Cause>, now: int)
    requires Halving(half) && forall y :: y in prior ==> y.kind != "" && 0.0 <= y.weight <= 1.0
    ensures var faded := Faded(cfg, half, prior, now);
            && (forall y :: y in faded ==> y.kind != "" && MinWeight(cfg) <= y.weight <= 1.0)
            && (forall kind :: KindCount(faded, kind) <= KindCount(prior, kind))
    decreases |prior|
  {
    if prior != [] {
      var init, last := prior[..|prior| - 1], prior[|prior| - 1];
      FadedOk(cfg, half, init, now);
      assert last in prior;
      FadeWeight(cfg, half, last, now);
      var rest := Faded(cfg, half, init, now);
      var item := Fade(cfg, half, last, now);
      assert (rest + [item])[..|rest|] == rest;
    }
  }

  lemma CountCons(head: Cause, tail: seq<Cause>, kind: string)
    ensures KindCount([head] + tail, kind) == (if head.kind == kind then 1 else 0) + KindCount(tail, kind)
  {
    CountAppend([head], tail, kind);
    CountOne([], head, kind);
    assert [] + [head] == [head];
  }

  lemma {:induction false} MergedCount(items: seq<Cause>, incoming: Cause, kind: string)
    requires incoming.kind != ""
    ensures KindCount(Merged(items, incoming), kind)
         == if kind == incoming.kind && KindCount(items, kind) == 0 then 1 else KindCount(items, kind)
    decreases |items|
  {
    if items == [] {
      CountCons(incoming, [], kind);
      assert [incoming] + [] == [incoming];
    } else {
      var head, tail := items[0], items[1..];
      assert items == [head] + tail;
      CountCons(head, tail, kind);
      if SameKind(head, incoming) {
        CountCons(MergedItem(head, incoming), tail, kind);
      } else {
        MergedCount(tail, incoming, kind);
        CountCons(head, Merged(tail, incoming), kind);
      }
    }
  }

  lemma {:induction false} MergedWeights(cfg: TraceConfig, items: seq<Cause>, incoming: Cause)
    requires forall y :: y in items ==> y.kind != "" && MinWeight(cfg) <= y.weight <= 1.0
    requires incoming.kind != "" && MinWeight(cfg) <= incoming.weight <= 1.0
    ensures forall y :: y in Merged(items, incoming) ==> y.kind != "" && MinWeight(cfg) <= y.weight <= 1.0
    decreases |items|
  {
    if items != [] {
      var head, tail := items[0], items[1..];
      assert head in items && forall y :: y in tail ==> y in items;
      if !SameKind(head, incoming) {
        MergedWeights(cfg, tail, incoming);
      }
    }
  }

  lemma CandidatesOk(cfg: TraceConfig, half: int -> real, prior: seq<Cause>, finding: Finding, now: int)
    requires Halving(half) && Plausible(prior)
    ensures var items := Candidates(cfg, half, prior, finding, now);
            && (forall y :: y in items ==> y.kind != "" && MinWeight(cfg) <= y.weight <= 1.0)
            && (forall kind :: KindCount(items, kind) <= 1)
  {
    DistinctIffCounts(prior);
    FadedOk(cfg, half, prior, now);
    var faded := Faded(cfg, half, prior, now);
    if Admits(cfg, finding) {
      MergedWeights(cfg, faded, Incoming(finding, now));
      forall kind ensures KindCount(Merged(faded, Incoming(finding, now)), kind) <= 1 {
        MergedCount(faded, Incoming(finding, now), kind);
        assert KindCount(faded, kind) <= KindCount(prior, kind) <= 1;
      }
    } else {
      forall kind ensures KindCount(faded, kind) <= 1 {
        assert KindCount(faded, kind) <= KindCount(prior, kind) <= 1;
      }
    }
  }

  lemma CutIsOutranked(sorted: seq<Cause>, n: nat, y: Cause)
    requires n <= |sorted| && Sorted(sorted) && y in sorted[n..]
    ensures n < |sorted| && forall k :: k in sorted[..n] ==> !Before(y, k)
  {
    var j :| 0 <= j < |sorted| - n && sorted[n..][j] == y;
    assert sorted[n + j] == y;
    forall k | k in sorted[..n] ensures !Before(y, k) {
      var i :| 0 <= i < n && sorted[i] == k;
    }
  }

  /** An update of a plausible trace gives distinct named kinds, weights between the minimum and
      1, sorted and within the size limit; nothing it cuts outranks anything it keeps. */
  lemma UpdateKeepsTrace(cfg: TraceConfig, half: int -> real, prior: seq<Cause>, finding: Finding, now: int)
    requires Halving(half) && Plausible(prior)
    ensures var next := UpdatedTrace(cfg, half, prior, finding, now);
            && TraceOk(cfg, next)
            && (forall y :: y in next ==> y in Candidates(cfg, half, prior, finding, now))
            && (forall y :: y in Candidates(cfg, half, prior, finding, now) && y !in next ==>
                  |next| == MaxItems(cfg) && forall k :: k in next ==> !Before(y, k))
  {
    hide Candidates, StableSort, KindCount;
    var items := Candidates(cfg, half, prior, finding, now);
    var sorted := StableSort(items);
    var next := UpdatedTrace(cfg, half, prior, finding, now);
    CandidatesOk(cfg, half, prior, finding, now);
    StableSortSorts(items);
    forall kind ensures KindCount(sorted, kind) <= 1 { SortCount(items, kind); }
    DistinctIffCounts(sorted);
    assert next == sorted[..|next|];
    assert forall y :: y in next ==> y in sorted;
    forall y | y in items && y !in next
      ensures |next| == MaxItems(cfg) && forall k :: k in next ==> !Before(y, k)
    {
      assert sorted == next + sorted[|next|..];
      CutIsOutranked(sorted, |next|, y);
    }
  }

  /** One update: a finding at a time. */
  datatype Update = Update(finding: Finding, now: int)

  function TraceAfter(cfg: TraceConfig, half: int -> real, s: seq<Cause>, updates: seq<Update>): seq<Cause>
    decreases |updates|
  {
    if updates == [] then s
    else TraceAfter(cfg, half, UpdatedTrace(cfg, half, s, updates[0].finding, updates[0].now), updates[1..])
  }

  /** The promise holds after any history of updates. */
  lemma {:induction false} TraceOkForever(cfg: TraceConfig, half: int -> real, s: seq<Cause>, updates: seq<Update>)
    requires Halving(half) && TraceOk(cfg, s)
    ensures TraceOk(cfg, TraceAfter(cfg, half, s, updates))
    decreases |updates|
  {
    if updates != [] {
      UpdateKeepsTrace(cfg, half, s, updates[0].finding, updates[0].now);
      TraceOkForever(cfg, half, UpdatedTrace(cfg, half, s, updates[0].finding, updates[0].now), updates[1..]);
    }
  }
}
