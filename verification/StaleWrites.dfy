/** Two runs in which a batch commits over a manual write it did not see. */
module StaleWrites {
  import opened Wrappers
  import opened JobTables
  import opened JobSelection
  import opened WorkerProtocol
  import opened WorkerInvariant
  import TableInvariant
  import MoodHistory

  lemma {:induction false} RunThen(s: System, acts: seq<Action>, a: Action)
    requires IsRun(s, acts) && Enabled(Exec(s, acts), a)
    ensures IsRun(s, acts + [a]) && Exec(s, acts + [a]) == Apply(Exec(s, acts), a)
    decreases |acts|
  {
    if acts == [] {
      assert [a][1..] == [];
      assert IsRun(Apply(s, a), []);
    } else {
      assert (acts + [a])[1..] == acts[1..] + [a];
      RunThen(Apply(s, acts[0]), acts[1..], a);
    }
  }

  lemma ReachableNext(s: System, a: Action)
    requires Reachable(s) && Enabled(s, a)
    ensures Reachable(Apply(s, a))
  {
    var acts :| IsRun(START, acts) && Exec(START, acts) == s;
    RunThen(START, acts, a);
  }

  lemma StartIsReachable()
    ensures Reachable(START)
  {
    assert IsRun(START, []) && Exec(START, []) == START;
  }

  const OWNER := MoodOwner("persona", "persona:default")
  const TURN := NewJob("default", "session-1", OWNER, TurnEvaluate, true, 3, 3, 0)
  const ONE_JOB := ClaimOptions(1, 0, 0, 0, 0, false)

  lemma WriterStamps(s: System, m: nat) returns (t: System)
    requires Reachable(s) && WriterOf(s, m).Away?
    ensures Reachable(t)
    ensures t == s.(writers := t.writers, clock := s.clock + 1, nextId := s.nextId + 1)
    ensures WriterOf(t, m) == Stamped(OWNER, Latest(s.db.moods, OWNER), MoodRow(s.nextId, OWNER, s.clock + 1))
    ensures forall k :: k != m ==> WriterOf(t, k) == WriterOf(s, k)
  {
    ReachableNext(s, WriterRead(m, OWNER));
    var r := Apply(s, WriterRead(m, OWNER));
    ReachableNext(r, WriterStamp(m, s.clock + 1));
    t := Apply(r, WriterStamp(m, s.clock + 1));
  }

  /** A first manual write (writer 1, stamped 1) is under way; a second (writer 2, stamped 2) has
      committed; one turn is queued. */
  lemma OneWriterWaiting() returns (s: System)
    ensures Reachable(s)
    ensures s.db.moods == [MoodRow(2, OWNER, 2)] && |s.db.events| == 1 && s.db.batches == map[]
    ensures s.db.jobs == map[1 := Job("default", "session-1", OWNER, TurnEvaluate, true, Pending, 3, 0, 3, None, None, 3, 0)]
    ensures s.db.nextSeq == 2 && s.clock == 3 && s.nextId == 3 && s.workers == map[]
    ensures WriterOf(s, 1) == Stamped(OWNER, None, MoodRow(1, OWNER, 1)) && WriterOf(s, 3).Away?
  {
    StartIsReachable();
    var s1 := WriterStamps(START, 1);
    var s2 := WriterStamps(s1, 2);
    ReachableNext(s2, WriterCommit(2));
    var s3 := Apply(s2, WriterCommit(2));
    assert s3.db.moods == [MoodRow(2, OWNER, 2)];
    assert WriterOf(START, 3).Away? && WriterOf(s1, 3).Away? && WriterOf(s2, 3).Away?;
    ReachableNext(s3, Enqueue(TURN, 3));
    s := Apply(s3, Enqueue(TURN, 3));
  }

  lemma ClaimTheOnlyJob(db: Db)
    requires db.nextSeq == 2 && db.batches == map[]
    requires db.jobs == map[1 := Job("default", "session-1", OWNER, TurnEvaluate, true, Pending, 3, 0, 3, None, None, 3, 0)]
    ensures ReleaseTx(db, 4) == db && Picked(db, 4, ONE_JOB) == [1]
  {
    assert ReleaseTx(db, 4).jobs == db.jobs;
    assert ReleaseTx(db, 4).batches == db.batches;
    var rows := DueRows(db.jobs, 4, 0, 2);
    assert 1 in rows && forall q :: q in rows ==> q == 1;
    assert rows == [1] by {
      assert rows[0] in rows;
    }
    var later := DueRows(db.jobs, 4, 1, 2);
    assert 1 in later && forall q :: q in later ==> q == 1;
    assert later == [1] by {
      assert later[0] in later;
    }
    assert Claimable(db.jobs, 1, 4, 0);
    assert Extend(db.jobs, later, db.jobs[1], ONE_JOB, 0, 0) == 1;
  }

  /** Worker 0 has claimed the turn, read the mood (row 2) and evaluated. */
  lemma WorkerEvaluated() returns (s: System)
    ensures Reachable(s)
    ensures s.db.moods == [MoodRow(2, OWNER, 2)] && |s.db.events| == 1
    ensures PcOf(s, 0).Evaluated? && PcOf(s, 0).before == Some(MoodRow(2, OWNER, 2)) && PcOf(s, 0).readAt == 1
    ensures IsRunning(s.db, PcOf(s, 0).b) && s.db.batches[PcOf(s, 0).b].owner == OWNER
    ensures WriterOf(s, 1) == Stamped(OWNER, None, MoodRow(1, OWNER, 1)) && WriterOf(s, 3).Away?
  {
    s := OneWriterWaiting();
    ClaimTheOnlyJob(s.db);
    var a := Claim(0, 4, ONE_JOB);
    ReachableNext(s, a);
    var s1 := Apply(s, a);
    assert s1.workers[0] == Claimed(3);
    assert s1.db == InsertClaim(s.db, [1], 3, 4 + DEFAULT_CLAIM_TTL);
    assert s1.db.jobs[1].batch == Some(3);
    ListContents(s1.db.jobs, 3, 0, 2);
    assert s1.db.jobs[1] in ListByBatch(s1.db.jobs, 3, 0, 2);
    ReachableNext(s1, List(0));
    var s2 := Apply(s1, List(0));
    assert s2.workers[0].Listed?;
    ReachableNext(s2, ReadMood(0));
    var s3 := Apply(s2, ReadMood(0));
    ReachableNext(s3, Evaluate(0));
    s := Apply(s3, Evaluate(0));
  }

  /** From the check on, undisturbed, the worker stamps and commits. */
  lemma CommitsFrom(s: System) returns (end: System)
    requires Reachable(s) && PcOf(s, 0).Checked? && IsRunning(s.db, PcOf(s, 0).b)
    ensures Reachable(end)
    ensures |end.db.moods| == |s.db.moods| + 1 && end.db.moods[..|s.db.moods|] == s.db.moods
    ensures end.db.events == s.db.events + [MoodEvent(Some(PcOf(s, 0).b), s.db.batches[PcOf(s, 0).b].owner,
                                                      RowId(PcOf(s, 0).before), s.nextId)]
  {
    ReachableNext(s, Stamp(0, s.clock + 1));
    var t := Apply(s, Stamp(0, s.clock + 1));
    ReachableInv(t);
    assert Holds(t.db, t.workers[0]);
    TableInvariant.RunningCountIsExact(t.db, PcOf(t, 0).b);
    ReachableNext(t, Commit(0, false));
    end := Apply(t, Commit(0, false));
  }

  /** A manual write that commits between the worker's reading and its check, but was stamped
      before the worker's base, is not detected: the check passes and the batch commits. */
  lemma LateManualWriteIsMissed() returns (s: System, end: System)
    ensures Reachable(s) && PcOf(s, 0).Evaluated? && Enabled(s, WriterCommit(1))
    ensures var t := Apply(s, WriterCommit(1));
            && Enabled(t, Check(0)) && Apply(t, Check(0)).workers[0].Checked?
            && Reachable(end) && |end.db.events| == |t.db.events| + 1
            && end.db.events[|t.db.events|].batch == Some(PcOf(s, 0).b)
  {
    s := WorkerEvaluated();
    ReachableNext(s, WriterCommit(1));
    var t := Apply(s, WriterCommit(1));
    assert t.db.moods == [MoodRow(2, OWNER, 2), MoodRow(1, OWNER, 1)];
    assert t.db.moods[..1] == [MoodRow(2, OWNER, 2)];
    assert Latest(t.db.moods, OWNER) == Some(MoodRow(2, OWNER, 2));
    ReachableNext(t, Check(0));
    var u := Apply(t, Check(0));
    assert u.workers[0].Checked?;
    end := CommitsFrom(u);
  }

  /** A manual write that commits between the check and the commit is overwritten whatever its
      stamp: the batch's event starts from a state that is no longer the latest. */
  lemma WriteAfterCheckIsOverwritten() returns (t: System, end: System)
    ensures Reachable(t) && PcOf(t, 0).Checked? && Reachable(end)
    ensures |end.db.events| == |t.db.events| + 1 && |end.db.moods| == |end.db.events|
    ensures var last := |t.db.events|;
            && end.db.events[last].batch == Some(PcOf(t, 0).b)
            && end.db.events[last].before != LatestId(end.db.moods[..last], end.db.events[last].owner)
  {
    var s := WorkerEvaluated();
    assert s.db.moods[..0] == [];
    assert Latest(s.db.moods, OWNER) == Some(MoodRow(2, OWNER, 2));
    ReachableNext(s, Check(0));
    t := Apply(s, Check(0));
    ReachableNext(t, WriterRead(3, OWNER));
    t := Apply(t, WriterRead(3, OWNER));
    ReachableNext(t, WriterStamp(3, t.clock + 1));
    t := Apply(t, WriterStamp(3, t.clock + 1));
    ReachableMoodsBefore(t);
    ReachableNext(t, WriterCommit(3));
    t := Apply(t, WriterCommit(3));
    end := CommitsFrom(t);
    var row := t.db.moods[1];
    assert t.db.moods[..1] == [MoodRow(2, OWNER, 2)];
    assert Latest(t.db.moods, OWNER) == Some(row);
    MoodHistory.ReachableMoods(end);
  }

  /** A row about to be inserted differs from those in the table, and is stamped later. */
  lemma ReachableMoodsBefore(t: System)
    requires Reachable(t) && WriterOf(t, 3).Stamped? && t.db.moods == [MoodRow(2, OWNER, 2)]
    requires WriterOf(t, 3).row.stamp == t.clock
    ensures WriterOf(t, 3).row.id != 2 && WriterOf(t, 3).row.stamp > 2
  {
    MoodHistory.ReachableMoods(t);
    assert MoodHistory.RowAt(t, MoodHistory.AtWriter(3)) == Some(WriterOf(t, 3).row);
    assert MoodHistory.RowAt(t, MoodHistory.InTable(0)) == Some(MoodRow(2, OWNER, 2));
  }
}
