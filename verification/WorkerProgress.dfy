/** A worker that is left alone gets its batch done. */
module WorkerProgress {
  import BatchWorker
  import opened Wrappers
  import opened JobTables
  import opened TableInvariant
  import opened WorkerProtocol
  import opened WorkerInvariant

  /** A worker's steps from its claim to its commit. */
  function Turn(w: nat, now: int, opts: ClaimOptions, clearRaw: bool): seq<Action>
  {
    [Claim(w, now, opts), List(w), ReadMood(w), Evaluate(w), Check(w), Stamp(w, now + 1), Commit(w, clearRaw)]
  }

  lemma RunUnrolls(s: System, a: Action, rest: seq<Action>)
    requires Enabled(s, a) && IsRun(Apply(s, a), rest)
    ensures IsRun(s, [a] + rest) && Exec(s, [a] + rest) == Exec(Apply(s, a), rest)
  {
    assert ([a] + rest)[1..] == rest;
  }

  /** A claimed batch is running and its list is not empty. */
  lemma ClaimedHasJobs(s: System, w: nat)
    requires Inv(s) && PcOf(s, w).Claimed? && IsRunning(s.db, PcOf(s, w).b)
    ensures ListByBatch(s.db.jobs, PcOf(s, w).b, 0, s.db.nextSeq) != []
  {
    var b := PcOf(s, w).b;
    RunningCountIsExact(s.db, b);
    assert BatchOk(s.db, b);
    var q := s.db.batches[b].jobIds[0];
    assert q in s.db.batches[b].jobIds;
    ListContents(s.db.jobs, b, 0, s.db.nextSeq);
    assert s.db.jobs[q] in ListByBatch(s.db.jobs, b, 0, s.db.nextSeq);
  }

  lemma ClaimIsRunning(s: System, w: nat, now: int, opts: ClaimOptions)
    requires Inv(s) && PcOf(s, w).Idle? && s.clock < now && PcOf(ApplyClaim(s, w, now, opts), w).Claimed?
    ensures PcOf(ApplyClaim(s, w, now, opts), w).b == s.nextId
    ensures IsRunning(ApplyClaim(s, w, now, opts).db, s.nextId)
  {
    ClaimCases(s.db, now, opts, s.nextId);
    ReleaseKeeps(s.db, now);
    ClaimKeeps(s.db, ReleaseTx(s.db, now), ClaimTx(s.db, now, opts, s.nextId).0, ClaimTx(s.db, now, opts, s.nextId).1, s.nextId);
  }

  /** Nothing but the workers' and the clock's places change before the commit. */
  lemma PrepareCommit(s: System, w: nat, now: int)
    requires Inv(s) && PcOf(s, w).Claimed? && IsRunning(s.db, PcOf(s, w).b) && s.clock < now
    requires !IsBarrier(s, PcOf(s, w).b)
    ensures var acts := [List(w), ReadMood(w), Evaluate(w), Check(w), Stamp(w, now)];
            IsRun(s, acts) && Exec(s, acts).db == s.db
            && PcOf(Exec(s, acts), w).Ready? && PcOf(Exec(s, acts), w).b == PcOf(s, w).b
            && PcOf(Exec(s, acts), w).before == Latest(s.db.moods, s.db.batches[PcOf(s, w).b].owner)
  {
    hide IsRun, Exec, Inv, Latest, ListByBatch;
    var b := PcOf(s, w).b;
    ClaimedHasJobs(s, w);
    var s1 := Apply(s, List(w));
    var s2 := Apply(s1, ReadMood(w));
    var s3 := Apply(s2, Evaluate(w));
    var s4 := Apply(s3, Check(w));
    var s5 := Apply(s4, Stamp(w, now));
    NoSteps(s5);
    RunUnrolls(s4, Stamp(w, now), []);
    RunUnrolls(s3, Check(w), [Stamp(w, now)] + []);
    RunUnrolls(s2, Evaluate(w), [Check(w)] + ([Stamp(w, now)] + []));
    RunUnrolls(s1, ReadMood(w), [Evaluate(w)] + ([Check(w)] + ([Stamp(w, now)] + [])));
    RunUnrolls(s, List(w), [ReadMood(w)] + ([Evaluate(w)] + ([Check(w)] + ([Stamp(w, now)] + []))));
    assert [List(w)] + ([ReadMood(w)] + ([Evaluate(w)] + ([Check(w)] + ([Stamp(w, now)] + []))))
        == [List(w), ReadMood(w), Evaluate(w), Check(w), Stamp(w, now)];
  }

  lemma NoSteps(s: System)
    ensures IsRun(s, []) && Exec(s, []) == s
  {}

  lemma CommitSucceeds(s: System, w: nat, clearRaw: bool)
    requires Inv(s) && PcOf(s, w).Ready? && IsRunning(s.db, PcOf(s, w).b)
    ensures var end := ApplyCommit(s, w, clearRaw);
            && PcOf(end, w).Idle? && end.db.events == s.db.events + [CommitEvent(PcOf(s, w))]
            && forall q :: q in s.db.batches[PcOf(s, w).b].jobIds ==> q in end.db.jobs && end.db.jobs[q].status.Done?
  {
    var b := PcOf(s, w).b;
    RunningCountIsExact(s.db, b);
    assert BatchOk(s.db, b);
  }

  /** A worker that claims a batch of turns and is left alone commits it: from any reachable state
      its seven steps are possible, and they leave one event more, from the latest mood, and every
      job of the batch done. */
  lemma UndisturbedTurnCommits(s: System, w: nat, now: int, opts: ClaimOptions, clearRaw: bool)
    requires Reachable(s) && PcOf(s, w).Idle? && s.clock < now
    requires PcOf(ApplyClaim(s, w, now, opts), w).Claimed? && !IsBarrier(ApplyClaim(s, w, now, opts), s.nextId)
    ensures IsRun(s, Turn(w, now, opts, clearRaw))
    ensures var claimed := ApplyClaim(s, w, now, opts).db;
            var end := Exec(s, Turn(w, now, opts, clearRaw));
            && PcOf(end, w).Idle? && s.nextId in claimed.batches
            && |end.db.events| == |claimed.events| + 1
            && end.db.events[|claimed.events|].batch == Some(s.nextId)
            && end.db.events[|claimed.events|].before == LatestId(claimed.moods, claimed.batches[s.nextId].owner)
            && (forall q :: q in claimed.batches[s.nextId].jobIds ==> q in end.db.jobs && end.db.jobs[q].status.Done?)
  {
    hide IsRun, Exec, Inv, Latest, ListByBatch, ApplyClaim, ApplyCommit;
    ReachableInv(s);
    ClaimIsRunning(s, w, now, opts);
    var s1 := Apply(s, Claim(w, now, opts));
    StepKeepsInv(s, Claim(w, now, opts));
    ClaimClock(s, w, now, opts);
    PrepareCommit(s1, w, now + 1);
    var middle := [List(w), ReadMood(w), Evaluate(w), Check(w), Stamp(w, now + 1)];
    var s2 := Exec(s1, middle);
    RunKeepsInv(s1, middle);
    CommitSucceeds(s2, w, clearRaw);
    NoSteps(Apply(s2, Commit(w, clearRaw)));
    RunUnrolls(s2, Commit(w, clearRaw), []);
    assert [Commit(w, clearRaw)] + [] == [Commit(w, clearRaw)];
    BatchWorker.ExecAppend(s1, middle, [Commit(w, clearRaw)]);
    RunUnrolls(s, Claim(w, now, opts), middle + [Commit(w, clearRaw)]);
    assert [Claim(w, now, opts)] + (middle + [Commit(w, clearRaw)]) == Turn(w, now, opts, clearRaw);
  }

  lemma ClaimClock(s: System, w: nat, now: int, opts: ClaimOptions)
    ensures ApplyClaim(s, w, now, opts).clock == now
  {}
}
