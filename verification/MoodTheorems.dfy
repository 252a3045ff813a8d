/** Who sees whose mood: the serial history of batch workers, exactly what the
    staleness check detects, and two runs that show what it does not. */
module MoodTheorems {
  import opened Wrappers
  import opened JobTables
  import opened TableInvariant
  import opened WorkerProtocol
  import opened WorkerInvariant
  import opened StatusGraph
  import opened MoodHistory

  // ---------------------------------------------------------------- workers only

  /** When an owner's stamps follow insertion order, its last row is its latest. */
  lemma LastIsLatest(moods: seq<MoodRow>, owner: MoodOwner, j: nat)
    requires j < |moods| && moods[j].owner == owner
    requires forall k :: j < k < |moods| ==> moods[k].owner != owner
    requires forall k :: 0 <= k < j && moods[k].owner == owner ==> moods[k].stamp < moods[j].stamp
    ensures Latest(moods, owner) == Some(moods[j])
  {
    assert moods[j] in moods;
    var latest := Latest(moods, owner).value;
    var k :| 0 <= k < |moods| && moods[k] == latest;
  }

  /** With batch workers as an owner's only writers its events are one chain, over every
      expiry and re-claim: each starts from the latest state, which is the one the owner's
      previous event left, and only the first starts from none. */
  lemma SerialHistory(s: System, owner: MoodOwner, i: nat)
    requires Reachable(s) && ManualFree(s.db, owner)
    requires i < |s.db.events| && i < |s.db.moods| && s.db.events[i].owner == owner
    ensures s.db.events[i].before == LatestId(s.db.moods[..i], owner)
    ensures forall j | 0 <= j < i && s.db.moods[j].owner == owner && (forall k :: j < k < i ==> s.db.moods[k].owner != owner)
              :: s.db.events[i].before == Some(s.db.moods[j].id)
    ensures s.db.events[i].before.None? <==> forall j :: 0 <= j < i ==> s.db.moods[j].owner != owner
  {
    hide Inv, RowsDistinct, BasesOk, Latest;
    ReachableMoods(s);
    assert Chained(s.db, owner);
    var earlier := s.db.moods[..i];
    forall j | 0 <= j < i && s.db.moods[j].owner == owner && (forall k :: j < k < i ==> s.db.moods[k].owner != owner)
      ensures s.db.events[i].before == Some(s.db.moods[j].id)
    {
      LastIsLatest(earlier, owner, j);
    }
    if s.db.events[i].before.None? {
      assert Latest(earlier, owner).None?;
      assert forall j :: 0 <= j < i ==> earlier[j] in earlier;
    } else {
      assert Latest(earlier, owner).Some?;
      var j :| 0 <= j < i && earlier[j] == Latest(earlier, owner).value;
    }
  }

  // ---------------------------------------------------------------- what the check detects

  /** The staleness check passes exactly when no row inserted since the worker read its base
      outranks that base.  While the batch runs those rows are all manual writes. */
  lemma CheckPassesIff(s: System, w: nat)
    requires Reachable(s) && Enabled(s, Check(w))
    ensures var pc := PcOf(s, w);
            var owner := s.db.batches[pc.b].owner;
            && pc.readAt <= |s.db.moods|
            && (Apply(s, Check(w)).workers[w].Checked?
                <==> forall i :: pc.readAt <= i < |s.db.moods| ==> !Outranks(s.db.moods, pc.readAt, owner, i))
            && (!Apply(s, Check(w)).workers[w].Checked? ==> Apply(s, Check(w)).workers[w] == Failing(pc.b, pc.jobs, false))
  {
    ReachableMoods(s);
    var pc := s.workers[w];
    assert Holds(s.db, pc) && BaseOk(s.db, pc);
    CheckComparesRows(s, pc);
    LatestUnchangedIff(s.db.moods, pc.readAt, s.db.batches[pc.b].owner);
  }

  /** At the commit the base is still the latest state exactly when no manual write has
      outranked it since the check; no batch can have. */
  lemma CommitBaseIsLatestIff(s: System, w: nat)
    requires Reachable(s) && PcOf(s, w).Ready? && IsRunning(s.db, PcOf(s, w).b)
    ensures var pc := PcOf(s, w);
            var owner := s.db.batches[pc.b].owner;
            && pc.checkAt <= |s.db.moods| && |s.db.events| == |s.db.moods|
            && (RowId(pc.before) == LatestId(s.db.moods, owner)
                <==> forall i :: pc.checkAt <= i < |s.db.moods| ==> !Outranks(s.db.moods, pc.checkAt, owner, i))
            && (forall i :: pc.checkAt <= i < |s.db.moods| && s.db.moods[i].owner == owner ==> IsManual(s.db, i))
  {
    ReachableMoods(s);
    var pc := s.workers[w];
    assert Holds(s.db, pc) && BaseOk(s.db, pc);
    var owner := s.db.batches[pc.b].owner;
    LatestUnchangedIff(s.db.moods, pc.checkAt, owner);
    var latest := Latest(s.db.moods, owner);
    if pc.before.Some? && latest.Some? && pc.before.value.id == latest.value.id {
      assert pc.before.value in s.db.moods[..pc.readAt];
      assert pc.before.value in s.db.moods;
      SameIdSameRow(s, pc.before.value, latest.value);
    }
  }

  /** A manual write becomes the owner's mood exactly when its stamp is the greatest there is:
      the stamp is taken before the write, so a slower writer can be passed. */
  lemma ManualWriteIsVisibleIff(s: System, m: nat)
    requires Reachable(s) && Enabled(s, WriterCommit(m))
    ensures var row := WriterOf(s, m).row;
            Latest(Apply(s, WriterCommit(m)).db.moods, row.owner) == Some(row)
            <==> forall x :: x in s.db.moods && x.owner == row.owner ==> x.stamp < row.stamp
  {
    ReachableMoods(s);
    var row := WriterOf(s, m).row;
    var moods := Apply(s, WriterCommit(m)).db.moods;
    assert moods[..|s.db.moods|] == s.db.moods && moods[|s.db.moods|] == row;
    forall x | x in s.db.moods ensures x != row && x.stamp != row.stamp {
      var i :| 0 <= i < |s.db.moods| && s.db.moods[i] == x;
      assert RowAt(s, InTable(i)) == Some(x) && RowAt(s, AtWriter(m)) == Some(row);
    }
  }

  // ---------------------------------------------------------------- a batch found stale

  /** Nobody can commit the batch any more: it has no event, and its holder, if any, is failing it. */
  ghost predicate Doomed(s: System, b: nat)
  {
    && b in s.db.batches
    && (forall i :: 0 <= i < |s.db.events| ==> s.db.events[i].batch != Some(b))
    && (forall w :: w in s.workers && !s.workers[w].Idle? && s.workers[w].b == b ==> s.workers[w].Failing?)
  }

  lemma ClaimGivesFreshBatch(s: System, w: nat, now: int, opts: ClaimOptions)
    ensures var pc := ApplyClaim(s, w, now, opts).workers[w]; !pc.Idle? ==> pc == Claimed(s.nextId)
  {
  }

  lemma WorkersKeepTheirBatch(s: System, a: Action, w: nat)
    requires Enabled(s, a) && !a.Claim?
    requires w in Apply(s, a).workers && !Apply(s, a).workers[w].Idle?
    ensures w in s.workers && !s.workers[w].Idle? && s.workers[w].b == Apply(s, a).workers[w].b
    ensures s.workers[w].Failing? ==> Apply(s, a).workers[w].Failing?
  {
  }

  lemma DoomedMoves(s: System, a: Action, b: nat, w: nat)
    requires Inv(s) && Enabled(s, a) && Doomed(s, b)
    requires w in Apply(s, a).workers && !Apply(s, a).workers[w].Idle? && Apply(s, a).workers[w].b == b
    ensures Apply(s, a).workers[w].Failing?
  {
    if a.Claim? {
      ClaimGivesFreshBatch(s, a.w, a.now, a.opts);
    } else {
      WorkersKeepTheirBatch(s, a, w);
    }
  }

  lemma DoomedEvents(s: System, a: Action, b: nat)
    requires Inv(s) && Enabled(s, a) && Doomed(s, b)
    ensures forall i :: 0 <= i < |Apply(s, a).db.events| ==> Apply(s, a).db.events[i].batch != Some(b)
  {
    if !a.Commit? && !a.WriterCommit? {
      QuietMoods(s, a);
    }
  }

  lemma {:induction false} DoomedForever(s: System, acts: seq<Action>, b: nat)
    requires Inv(s) && IsRun(s, acts) && Doomed(s, b)
    ensures Doomed(Exec(s, acts), b)
    decreases |acts|
  {
    if acts != [] {
      StepEdges(s, acts[0]);
      StepKeepsInv(s, acts[0]);
      var s' := Apply(s, acts[0]);
      forall w | w in s'.workers && !s'.workers[w].Idle? && s'.workers[w].b == b ensures s'.workers[w].Failing? {
        DoomedMoves(s, acts[0], b, w);
      }
      DoomedEvents(s, acts[0], b);
      DoomedForever(Apply(s, acts[0]), acts[1..], b);
    }
  }

  /** A manual write that commits before the check, and is stamped after the worker's base, keeps
      the batch from ever being committed, in every continuation. */
  lemma DetectedBatchNeverCommits(s: System, w: nat, i: nat, acts: seq<Action>)
    requires Reachable(s) && Enabled(s, Check(w))
    requires PcOf(s, w).readAt <= i < |s.db.moods|
    requires Outranks(s.db.moods, PcOf(s, w).readAt, s.db.batches[PcOf(s, w).b].owner, i)
    requires IsRun(Apply(s, Check(w)), acts)
    ensures var end := Exec(Apply(s, Check(w)), acts);
            forall k :: 0 <= k < |end.db.events| ==> end.db.events[k].batch != Some(PcOf(s, w).b)
  {
    CheckPassesIff(s, w);
    ReachableInv(s);
    var b := PcOf(s, w).b;
    assert Holds(s.db, s.workers[w]);
    forall k | 0 <= k < |s.db.events| ensures s.db.events[k].batch != Some(b) {
      assert s.db.events[k].batch.Some? ==> CommittedOk(s.db, s.db.events[k].batch.value);
    }
    StepKeepsInv(s, Check(w));
    assert Doomed(Apply(s, Check(w)), b);
    DoomedForever(Apply(s, Check(w)), acts, b);
  }
}
