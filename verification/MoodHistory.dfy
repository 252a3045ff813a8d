/** The mood rows that batches and manual writers leave behind: what a worker
    knows about its owner's mood, and what its staleness check can see. */
module MoodHistory {
  import opened Wrappers
  import opened JobTables
  import opened TableInvariant
  import opened WorkerProtocol
  import opened WorkerInvariant
  import opened StatusGraph

  // ---------------------------------------------------------------- the latest row

  /** A row of the owner that the latest row of the first `k` does not outrank. */
  predicate Outranks(moods: seq<MoodRow>, k: nat, owner: MoodOwner, i: nat)
    requires k <= |moods| && i < |moods|
  {
    var known := Latest(moods[..k], owner);
    moods[i].owner == owner && (known.None? || known.value.stamp < moods[i].stamp)
  }

  /** Later insertions change the latest row exactly when one of them outranks it:
      a row inserted later but stamped earlier is never seen. */
  lemma {:induction false} LatestUnchangedIff(moods: seq<MoodRow>, k: nat, owner: MoodOwner)
    requires k <= |moods|
    ensures Latest(moods, owner) == Latest(moods[..k], owner)
            <==> forall i :: k <= i < |moods| ==> !Outranks(moods, k, owner, i)
    decreases |moods| - k
  {
    if k == |moods| {
      assert moods[..k] == moods;
    } else {
      var init := moods[..|moods| - 1];
      assert init[..k] == moods[..k];
      LatestUnchangedIff(init, k, owner);
      assert forall i :: k <= i < |init| ==> Outranks(init, k, owner, i) == Outranks(moods, k, owner, i);
      if i :| k <= i < |init| && Outranks(init, k, owner, i) {
        assert Outranks(moods, k, owner, i);
        assert moods[i] in moods;
        assert Latest(moods, owner).Some? && moods[i].stamp <= Latest(moods, owner).value.stamp;
      } else {
        assert Latest(init, owner) == Latest(moods[..k], owner);
        if Outranks(moods, k, owner, |moods| - 1) {
          assert Latest(moods, owner) == Some(moods[|moods| - 1]);
        }
      }
    }
  }

  // ---------------------------------------------------------------- where rows live

  /** A mood row is in the table, or in the hands of a worker or writer about to insert it. */
  datatype Place = InTable(i: nat) | AtWorker(w: nat) | AtWriter(m: nat)

  function RowAt(s: System, p: Place): Option<MoodRow>
  {
    match p
    case InTable(i) => if i < |s.db.moods| then Some(s.db.moods[i]) else None
    case AtWorker(w) => if PcOf(s, w).Ready? then Some(PcOf(s, w).row) else None
    case AtWriter(m) =>
      var wr := WriterOf(s, m);
      if wr.Stamped? || wr.Cleared? then Some(wr.row) else None
  }

  /** Ids and stamps are in the past, and no two places share one. */
  ghost predicate RowsDistinct(s: System)
  {
    && (forall p :: RowAt(s, p).Some? ==> RowAt(s, p).value.stamp <= s.clock && RowAt(s, p).value.id < s.nextId)
    && (forall p, r :: p != r && RowAt(s, p).Some? && RowAt(s, r).Some? ==>
          RowAt(s, p).value.id != RowAt(s, r).value.id && RowAt(s, p).value.stamp != RowAt(s, r).value.stamp)
  }

  ghost predicate EventsMatch(db: Db)
  {
    && |db.events| == |db.moods|
    && forall i :: 0 <= i < |db.events| ==> db.events[i].after == db.moods[i].id && db.events[i].owner == db.moods[i].owner
  }

  // ---------------------------------------------------------------- what a worker knows

  predicate HasBase(pc: Pc)
  {
    pc.Based? || pc.Evaluated? || pc.Checked? || pc.Ready?
  }

  predicate IsManual(db: Db, i: nat)
    requires i < |db.events|
  {
    db.events[i].batch.None?
  }

  /** While its batch runs, only manual writers add rows for its owner. */
  ghost predicate BaseOk(db: Db, pc: Pc)
    requires HasBase(pc) && pc.b in db.batches && |db.events| == |db.moods|
  {
    var owner := db.batches[pc.b].owner;
    && pc.readAt <= |db.moods|
    && pc.before == Latest(db.moods[..pc.readAt], owner)
    && (IsRunning(db, pc.b) ==>
          forall i :: pc.readAt <= i < |db.moods| && db.moods[i].owner == owner ==> IsManual(db, i))
    && (pc.Checked? || pc.Ready? ==>
          pc.readAt <= pc.checkAt <= |db.moods| && pc.before == Latest(db.moods[..pc.checkAt], owner))
    && (pc.Ready? ==>
          && pc.row.owner == owner
          && (IsRunning(db, pc.b) ==>
                forall i :: 0 <= i < |db.moods| && db.moods[i].owner == owner && !IsManual(db, i) ==>
                  db.moods[i].stamp < pc.row.stamp))
  }

  ghost predicate BasesOk(s: System)
    requires Inv(s)
  {
    forall w :: w in s.workers && HasBase(s.workers[w]) ==> Holds(s.db, s.workers[w]) && BaseOk(s.db, s.workers[w])
  }

  // ---------------------------------------------------------------- the chain

  ghost predicate ManualFree(db: Db, owner: MoodOwner)
  {
    forall i :: 0 <= i < |db.events| && db.events[i].owner == owner ==> !IsManual(db, i)
  }

  /** Every event of the owner starts from the latest state at the moment of its commit and
      becomes the latest. */
  ghost predicate Chained(db: Db, owner: MoodOwner)
    requires |db.events| == |db.moods|
  {
    && (forall i :: 0 <= i < |db.events| && db.moods[i].owner == owner ==>
          db.events[i].before == LatestId(db.moods[..i], owner))
    && (forall i, j :: 0 <= i < j < |db.moods| && db.moods[i].owner == owner && db.moods[j].owner == owner ==>
          db.moods[i].stamp < db.moods[j].stamp)
  }

  ghost predicate ChainsOk(db: Db)
    requires |db.events| == |db.moods|
  {
    forall owner :: ManualFree(db, owner) ==> Chained(db, owner)
  }

  ghost predicate WritersOk(s: System)
  {
    forall m :: m in s.writers && (s.writers[m].Stamped? || s.writers[m].Cleared?) ==>
      s.writers[m].row.owner == s.writers[m].owner
  }

  ghost predicate MoodInv(s: System)
  {
    && Inv(s)
    && WritersOk(s)
    && RowsDistinct(s)
    && EventsMatch(s.db)
    && BasesOk(s)
    && ChainsOk(s.db)
  }

  // ---------------------------------------------------------------- rows stay distinct

  lemma RowsKept(s: System, s': System)
    requires RowsDistinct(s) && s.clock <= s'.clock && s.nextId <= s'.nextId
    requires forall p :: RowAt(s', p).Some? ==> RowAt(s', p) == RowAt(s, p)
    ensures RowsDistinct(s')
  {
    forall p | RowAt(s', p).Some? ensures RowAt(s', p).value.stamp <= s'.clock && RowAt(s', p).value.id < s'.nextId {
      assert RowAt(s, p).Some?;
    }
    forall p, r | p != r && RowAt(s', p).Some? && RowAt(s', r).Some?
      ensures RowAt(s', p).value.id != RowAt(s', r).value.id && RowAt(s', p).value.stamp != RowAt(s', r).value.stamp
    {
      assert RowAt(s, p).Some? && RowAt(s, r).Some?;
    }
  }

  lemma RowStamped(s: System, s': System, at: Place)
    requires RowsDistinct(s) && s.clock < s'.clock && s.nextId < s'.nextId
    requires forall p :: p != at && RowAt(s', p).Some? ==> RowAt(s', p) == RowAt(s, p)
    requires RowAt(s', at).Some? && RowAt(s', at).value.id == s.nextId && RowAt(s', at).value.stamp == s'.clock
    ensures RowsDistinct(s')
  {
    forall p | RowAt(s', p).Some? ensures RowAt(s', p).value.stamp <= s'.clock && RowAt(s', p).value.id < s'.nextId {
      assert p != at ==> RowAt(s, p).Some?;
    }
    forall p, r | p != r && RowAt(s', p).Some? && RowAt(s', r).Some?
      ensures RowAt(s', p).value.id != RowAt(s', r).value.id && RowAt(s', p).value.stamp != RowAt(s', r).value.stamp
    {
      assert (p != at ==> RowAt(s, p).Some?) && (r != at ==> RowAt(s, r).Some?);
    }
  }

  lemma RowInserted(s: System, s': System, from: Place, to: Place)
    requires RowsDistinct(s) && s.clock == s'.clock && s.nextId == s'.nextId
    requires RowAt(s, from).Some? && RowAt(s', to) == RowAt(s, from) && from != to && RowAt(s', from).None?
    requires forall p :: p != to && RowAt(s', p).Some? ==> RowAt(s', p) == RowAt(s, p)
    ensures RowsDistinct(s')
  {
    forall p | RowAt(s', p).Some? ensures RowAt(s', p).value.stamp <= s'.clock && RowAt(s', p).value.id < s'.nextId {
      assert RowAt(s, if p == to then from else p).Some?;
    }
    forall p, r | p != r && RowAt(s', p).Some? && RowAt(s', r).Some?
      ensures RowAt(s', p).value.id != RowAt(s', r).value.id && RowAt(s', p).value.stamp != RowAt(s', r).value.stamp
    {
      assert RowAt(s, if p == to then from else p).Some? && RowAt(s, if r == to then from else r).Some?;
    }
  }

  /** Steps that insert no mood row. */
  lemma QuietMoods(s: System, a: Action)
    requires Inv(s) && Enabled(s, a) && !a.Commit? && !a.WriterCommit?
    ensures Apply(s, a).db.moods == s.db.moods && Apply(s, a).db.events == s.db.events
  {
    match a {
      case Claim(w, now, opts) => ClaimCases(s.db, now, opts, s.nextId);
      case _ =>
    }
  }

  lemma CommitRows(s: System, w: nat, clearRaw: bool)
    requires RowsDistinct(s) && PcOf(s, w).Ready?
    ensures RowsDistinct(ApplyCommit(s, w, clearRaw))
  {
    var s' := ApplyCommit(s, w, clearRaw);
    if CommitAllowed(s.db, PcOf(s, w).b) {
      RowInserted(s, s', AtWorker(w), InTable(|s.db.moods|));
    } else {
      RowsKept(s, s');
    }
  }

  lemma StepKeepsDistinct(s: System, a: Action)
    requires Inv(s) && RowsDistinct(s) && Enabled(s, a)
    ensures RowsDistinct(Apply(s, a))
  {
    hide ClaimTx, MarkDoneTx, MarkFailedTx, CommitTx, EnqueueTx, ClearFailedTx, ListByBatch, Latest;
    hide TablesOk, WorkersOk, RowsDistinct;
    var s' := Apply(s, a);
    match a {
      case Commit(w, clearRaw) => CommitRows(s, w, clearRaw);
      case WriterCommit(m) => RowInserted(s, s', AtWriter(m), InTable(|s.db.moods|));
      case Stamp(w, _) => RowStamped(s, s', AtWorker(w));
      case WriterStamp(m, _) => RowStamped(s, s', AtWriter(m));
      case _ =>
        QuietMoods(s, a);
        QuietRows(s, a);
    }
  }

  lemma QuietRows(s: System, a: Action)
    requires Inv(s) && RowsDistinct(s) && Enabled(s, a)
    requires !a.Commit? && !a.WriterCommit? && !a.Stamp? && !a.WriterStamp?
    requires Apply(s, a).db.moods == s.db.moods
    ensures RowsDistinct(Apply(s, a))
  {
    hide ClaimTx, MarkDoneTx, MarkFailedTx, CommitTx, EnqueueTx, SupersedeTx, ClearFailedTx, ListByBatch, Latest, TablesOk, WorkersOk, RowsDistinct;
    RowsKept(s, Apply(s, a));
  }

  // ---------------------------------------------------------------- bases stay good

  /** The mood tables grow, and by manual rows only for an owner whose batch runs. */
  ghost predicate Grows(db: Db, db': Db)
  {
    && |db.moods| == |db.events| && |db'.moods| == |db'.events|
    && |db.moods| <= |db'.moods|
    && db'.moods[..|db.moods|] == db.moods && db'.events[..|db.events|] == db.events
  }

  ghost predicate KeepsBatch(db: Db, db': Db, b: nat)
  {
    && b in db.batches && b in db'.batches && db'.batches[b].owner == db.batches[b].owner
    && (IsRunning(db', b) ==> IsRunning(db, b))
  }

  lemma EdgesKeepBatch(db: Db, db': Db, b: nat)
    requires Edges(db, db') && b in db.batches
    ensures KeepsBatch(db, db', b)
  {
    assert BatchEdge(db.batches[b].status, db'.batches[b].status);
  }

  lemma BaseFrame(db: Db, db': Db, pc: Pc)
    requires HasBase(pc) && Grows(db, db') && KeepsBatch(db, db', pc.b)
    requires BaseOk(db, pc)
    requires IsRunning(db', pc.b) ==>
               forall i :: |db.moods| <= i < |db'.moods| && db'.moods[i].owner == db.batches[pc.b].owner ==> IsManual(db', i)
    ensures BaseOk(db', pc)
  {
    hide Latest, TablesOk;
    assert db'.moods[..pc.readAt] == db.moods[..pc.readAt];
    if pc.Checked? || pc.Ready? {
      assert db'.moods[..pc.checkAt] == db.moods[..pc.checkAt];
    }
    assert forall i :: 0 <= i < |db.moods| ==> db'.moods[i] == db.moods[i] && db'.events[i] == db.events[i];
  }

  /** A fresh reading of the mood is a good base. */
  lemma ReadBase(db: Db, pc: Pc)
    requires pc.Based? && pc.b in db.batches && |db.events| == |db.moods|
    requires pc.readAt == |db.moods| && pc.before == Latest(db.moods, db.batches[pc.b].owner)
    ensures BaseOk(db, pc)
  {
    assert db.moods[..|db.moods|] == db.moods;
  }

  /** Two rows of the table with one id are one row. */
  lemma SameIdSameRow(s: System, x: MoodRow, y: MoodRow)
    requires RowsDistinct(s) && x in s.db.moods && y in s.db.moods && x.id == y.id
    ensures x == y
  {
    var i :| 0 <= i < |s.db.moods| && s.db.moods[i] == x;
    var j :| 0 <= j < |s.db.moods| && s.db.moods[j] == y;
    assert RowAt(s, InTable(i)) == Some(x) && RowAt(s, InTable(j)) == Some(y);
  }

  /** The comparison of ids in ensureBatchBaseStillCurrent compares whole rows. */
  lemma CheckComparesRows(s: System, pc: Pc)
    requires RowsDistinct(s) && pc.Evaluated? && pc.b in s.db.batches && |s.db.events| == |s.db.moods|
    requires BaseOk(s.db, pc)
    ensures BaseStillCurrent(pc.before, Latest(s.db.moods, s.db.batches[pc.b].owner))
            <==> pc.before == Latest(s.db.moods, s.db.batches[pc.b].owner)
  {
    var latest := Latest(s.db.moods, s.db.batches[pc.b].owner);
    if pc.before.Some? {
      assert pc.before.value in s.db.moods[..pc.readAt];
      assert pc.before.value in s.db.moods;
      assert latest.Some?;
      if latest.value.id == pc.before.value.id {
        SameIdSameRow(s, latest.value, pc.before.value);
      }
    }
  }

  /** The acting worker's own next base; `s'` differs from `s` in its program counter only. */
  lemma OwnBase(s: System, a: Action)
    requires MoodInv(s) && Enabled(s, a)
    requires a.ReadMood? || a.Evaluate? || a.Check? || a.Stamp?
    ensures var pc := Apply(s, a).workers[a.w]; HasBase(pc) ==> pc.b in s.db.batches && BaseOk(s.db, pc)
  {
    var pc := s.workers[a.w];
    assert Holds(s.db, pc);
    match a {
      case ReadMood(w) => ReadBase(s.db, Apply(s, a).workers[w]);
      case Check(w) =>
        CheckComparesRows(s, pc);
        assert s.db.moods[..|s.db.moods|] == s.db.moods;
      case Stamp(w, now) =>
        assert BaseOk(s.db, pc);
        forall i | 0 <= i < |s.db.moods| ensures s.db.moods[i].stamp < now {
          assert RowAt(s, InTable(i)).Some?;
        }
      case Evaluate(w) =>
    }
  }

  lemma LocalBases(s: System, a: Action)
    requires MoodInv(s) && Enabled(s, a)
    requires a.ReadMood? || a.Evaluate? || a.Check? || a.Stamp?
    requires Inv(Apply(s, a))
    ensures BasesOk(Apply(s, a))
  {
    hide BaseOk, TablesOk, Latest;
    var s' := Apply(s, a);
    OwnBase(s, a);
    forall w | w in s'.workers && HasBase(s'.workers[w]) ensures BaseOk(s'.db, s'.workers[w]) {
      if w != a.w {
        assert BaseOk(s.db, s.workers[w]);
      }
    }
  }

  /** Steps that leave every based worker where it is, and insert no mood row. */
  lemma OtherBases(s: System, a: Action)
    requires MoodInv(s) && Enabled(s, a) && Inv(Apply(s, a))
    requires !a.ReadMood? && !a.Evaluate? && !a.Check? && !a.Stamp? && !a.Commit? && !a.WriterCommit?
    ensures BasesOk(Apply(s, a))
  {
    hide BaseOk, TablesOk, Edges, Apply;
    var s' := Apply(s, a);
    StepEdges(s, a);
    QuietMoods(s, a);
    MovesNoBase(s, a);
    forall w | w in s'.workers && HasBase(s'.workers[w]) ensures BaseOk(s'.db, s'.workers[w]) {
      assert Holds(s.db, s.workers[w]) && BaseOk(s.db, s.workers[w]);
      EdgesKeepBatch(s.db, s'.db, s.workers[w].b);
      BaseFrame(s.db, s'.db, s.workers[w]);
    }
  }

  lemma MovesNoBase(s: System, a: Action)
    requires Enabled(s, a)
    requires !a.ReadMood? && !a.Evaluate? && !a.Check? && !a.Stamp?
    ensures forall w :: w in Apply(s, a).workers && HasBase(Apply(s, a).workers[w]) ==>
              w in s.workers && Apply(s, a).workers[w] == s.workers[w]
  {
  }

  /** Two workers with running batches work for different owners. */
  lemma OwnersDiffer(s: System, v: nat, w: nat)
    requires Inv(s) && v != w && v in s.workers && w in s.workers
    requires !s.workers[v].Idle? && !s.workers[w].Idle?
    requires IsRunning(s.db, s.workers[v].b) && IsRunning(s.db, s.workers[w].b)
    ensures s.db.batches[s.workers[v].b].owner != s.db.batches[s.workers[w].b].owner
  {
  }

  lemma CommitBase(s: System, w: nat, db': Db, v: nat)
    requires MoodInv(s) && PcOf(s, w).Ready? && v != w && v in s.workers && HasBase(s.workers[v])
    requires IsRunning(s.db, PcOf(s, w).b) && Edges(s.db, db')
    requires db'.moods == s.db.moods + [PcOf(s, w).row] && db'.events == s.db.events + [CommitEvent(PcOf(s, w))]
    ensures BaseOk(db', s.workers[v])
  {
    var pc := s.workers[v];
    assert Holds(s.db, pc) && BaseOk(s.db, pc);
    assert Holds(s.db, s.workers[w]) && BaseOk(s.db, s.workers[w]);
    if IsRunning(db', pc.b) {
      assert IsRunning(s.db, pc.b);
      OwnersDiffer(s, v, w);
    }
    EdgesKeepBatch(s.db, db', pc.b);
    BaseFrame(s.db, db', pc);
  }

  lemma CommitBases(s: System, w: nat, clearRaw: bool)
    requires MoodInv(s) && PcOf(s, w).Ready? && Inv(ApplyCommit(s, w, clearRaw))
    requires Edges(s.db, ApplyCommit(s, w, clearRaw).db)
    ensures BasesOk(ApplyCommit(s, w, clearRaw))
  {
    hide BaseOk, TablesOk, RunningOf;
    var s' := ApplyCommit(s, w, clearRaw);
    forall v | v in s'.workers && HasBase(s'.workers[v]) ensures BaseOk(s'.db, s'.workers[v]) {
      if CommitAllowed(s.db, PcOf(s, w).b) {
        CommitBase(s, w, s'.db, v);
      } else {
        assert BaseOk(s.db, s.workers[v]);
      }
    }
  }

  lemma WriterCommitBases(s: System, m: nat)
    requires MoodInv(s) && Enabled(s, WriterCommit(m)) && Inv(Apply(s, WriterCommit(m)))
    ensures BasesOk(Apply(s, WriterCommit(m)))
  {
    hide BaseOk, Edges, TablesOk;
    var s' := Apply(s, WriterCommit(m));
    StepEdges(s, WriterCommit(m));
    forall w | w in s'.workers && HasBase(s'.workers[w]) ensures BaseOk(s'.db, s'.workers[w]) {
      assert Holds(s.db, s.workers[w]) && BaseOk(s.db, s.workers[w]);
      EdgesKeepBatch(s.db, s'.db, s.workers[w].b);
      BaseFrame(s.db, s'.db, s.workers[w]);
    }
  }

  // ---------------------------------------------------------------- chains stay chains

  lemma LatestOfUntouched(moods: seq<MoodRow>, k: nat, owner: MoodOwner)
    requires k <= |moods| && forall i :: k <= i < |moods| ==> moods[i].owner != owner
    ensures Latest(moods, owner) == Latest(moods[..k], owner)
  {
    LatestUnchangedIff(moods, k, owner);
  }

  /** Appending a row and its event keeps every other owner's chain. */
  lemma ChainAppend(db: Db, row: MoodRow, event: MoodEvent, owner: MoodOwner)
    requires EventsMatch(db) && Chained(db, owner)
    requires row.owner == owner ==>
               event.before == LatestId(db.moods, owner)
               && forall i :: 0 <= i < |db.moods| && db.moods[i].owner == owner ==> db.moods[i].stamp < row.stamp
    ensures Chained(db.(moods := db.moods + [row], events := db.events + [event]), owner)
  {
    var db' := db.(moods := db.moods + [row], events := db.events + [event]);
    assert db'.moods[..|db.moods|] == db.moods;
    forall i | 0 <= i < |db'.events| && db'.moods[i].owner == owner
      ensures db'.events[i].before == LatestId(db'.moods[..i], owner)
    {
      if i < |db.events| {
        assert db'.moods[..i] == db.moods[..i];
      }
    }
  }

  lemma CommitChains(s: System, w: nat, clearRaw: bool)
    requires MoodInv(s) && PcOf(s, w).Ready?
    ensures EventsMatch(ApplyCommit(s, w, clearRaw).db) && ChainsOk(ApplyCommit(s, w, clearRaw).db)
  {
    var pc := s.workers[w];
    assert Holds(s.db, pc) && BaseOk(s.db, pc);
    if CommitAllowed(s.db, pc.b) {
      var db' := s.db.(moods := s.db.moods + [pc.row], events := s.db.events + [CommitEvent(pc)]);
      forall owner | ManualFree(db', owner) ensures Chained(db', owner) {
        forall i | 0 <= i < |s.db.events| && s.db.moods[i].owner == owner ensures !IsManual(s.db, i) {
          assert db'.moods[i] == s.db.moods[i] && db'.events[i] == s.db.events[i];
          assert !IsManual(db', i);
        }
        assert ManualFree(s.db, owner);
        if pc.row.owner == owner {
          LatestOfUntouched(s.db.moods, pc.readAt, owner);
        }
        ChainAppend(s.db, pc.row, CommitEvent(pc), owner);
      }
      assert ApplyCommit(s, w, clearRaw).db.moods == db'.moods && ApplyCommit(s, w, clearRaw).db.events == db'.events;
      ChainsDependOnMoods(db', ApplyCommit(s, w, clearRaw).db);
    }
  }

  lemma ChainsDependOnMoods(db: Db, db': Db)
    requires EventsMatch(db) && ChainsOk(db) && db'.moods == db.moods && db'.events == db.events
    ensures EventsMatch(db') && ChainsOk(db')
  {
    forall owner | ManualFree(db', owner) ensures Chained(db', owner) {
      forall i | 0 <= i < |db.events| && db.moods[i].owner == owner ensures !IsManual(db, i) {
        assert !IsManual(db', i);
      }
      assert ManualFree(db, owner);
      assert Chained(db, owner);
    }
  }

  lemma WriterCommitChains(s: System, m: nat)
    requires MoodInv(s) && Enabled(s, WriterCommit(m)) && WriterOf(s, m).row.owner == WriterOf(s, m).owner
    ensures EventsMatch(Apply(s, WriterCommit(m)).db) && ChainsOk(Apply(s, WriterCommit(m)).db)
  {
    var db' := Apply(s, WriterCommit(m)).db;
    var wr := WriterOf(s, m);
    forall owner | ManualFree(db', owner) ensures Chained(db', owner) {
      assert IsManual(db', |s.db.moods|);
      assert wr.row.owner != owner;
      forall i | 0 <= i < |s.db.events| && s.db.moods[i].owner == owner ensures !IsManual(s.db, i) {
        assert db'.moods[i] == s.db.moods[i] && db'.events[i] == s.db.events[i];
        assert !IsManual(db', i);
      }
      assert ManualFree(s.db, owner);
      ChainAppend(s.db, wr.row, MoodEvent(None, wr.owner, RowId(wr.before), wr.row.id), owner);
    }
  }

  lemma WriterKeepsOwner(s: System, a: Action)
    requires WritersOk(s) && Enabled(s, a)
    ensures WritersOk(Apply(s, a))
  {
  }

  /** One step of anyone keeps the mood invariant. */
  lemma StepKeepsMoods(s: System, a: Action)
    requires MoodInv(s) && Enabled(s, a)
    ensures MoodInv(Apply(s, a))
  {
    StepKeepsInv(s, a);
    StepKeepsDistinct(s, a);
    WriterKeepsOwner(s, a);
    match a {
      case Commit(w, clearRaw) =>
        StepEdges(s, a);
        CommitBases(s, w, clearRaw);
        CommitChains(s, w, clearRaw);
      case WriterCommit(m) =>
        WriterCommitBases(s, m);
        WriterCommitChains(s, m);
      case _ =>
        QuietStep(s, a);
    }
  }

  lemma QuietStep(s: System, a: Action)
    requires MoodInv(s) && Enabled(s, a) && !a.Commit? && !a.WriterCommit? && Inv(Apply(s, a))
    ensures BasesOk(Apply(s, a)) && EventsMatch(Apply(s, a).db) && ChainsOk(Apply(s, a).db)
  {
    QuietMoods(s, a);
    ChainsDependOnMoods(s.db, Apply(s, a).db);
    if a.ReadMood? || a.Evaluate? || a.Check? || a.Stamp? {
      LocalBases(s, a);
    } else {
      OtherBases(s, a);
    }
  }

  lemma {:induction false} RunKeepsMoods(s: System, acts: seq<Action>)
    requires MoodInv(s) && IsRun(s, acts)
    ensures MoodInv(Exec(s, acts))
    decreases |acts|
  {
    if acts != [] {
      StepKeepsMoods(s, acts[0]);
      RunKeepsMoods(Apply(s, acts[0]), acts[1..]);
    }
  }

  lemma ReachableMoods(s: System)
    requires Reachable(s)
    ensures MoodInv(s)
  {
    var acts :| IsRun(START, acts) && Exec(START, acts) == s;
    assert Inv(START);
    RunKeepsMoods(START, acts);
  }
}
