/** The queue's promises, for every state that any run can reach. */
module QueueTheorems {
  import opened Wrappers
  import opened JobTables
  import opened JobSelection
  import opened RetryPolicy
  import opened TableInvariant
  import opened WorkerProtocol
  import opened WorkerInvariant
  import opened AttemptInvariant
  import opened StatusGraph
  import opened MoodHistory
  import opened QueueRows

  // ---------------------------------------------------------------- exclusivity

  lemma RowsAgree(db: Db)
    requires TablesOk(db)
    ensures forall q :: q in db.jobs && db.jobs[q].batch.Some? ==>
              && db.jobs[q].batch.value in db.batches
              && (db.jobs[q].status.Running? <==> IsRunning(db, db.jobs[q].batch.value))
    ensures forall q :: q in db.jobs && db.jobs[q].status.Running? ==> db.jobs[q].batch.Some?
    ensures forall p, q | p in db.jobs && q in db.jobs && db.jobs[p].status.Running? && db.jobs[q].status.Running?
                          && db.jobs[p].owner == db.jobs[q].owner
              :: db.jobs[p].batch == db.jobs[q].batch
  {
    forall q | q in db.jobs ensures RowOk(db, q) {}
  }

  lemma RunningBatchAgrees(db: Db, b: nat)
    requires TablesOk(db) && IsRunning(db, b)
    ensures |RunningOf(db.jobs, b)| == db.batches[b].jobCount
    ensures forall q :: q in RunningOf(db.jobs, b) <==> q in db.batches[b].jobIds
  {
    RunningCountIsExact(db, b);
    assert BatchOk(db, b);
    forall q | q in RunningOf(db.jobs, b) ensures q in db.batches[b].jobIds {
      assert RowOk(db, q);
    }
    forall q | q in db.batches[b].jobIds ensures q in RunningOf(db.jobs, b) {
      assert RowOk(db, q);
    }
  }

  lemma OneClaim(db: Db, b: nat, p: nat, q: nat)
    requires TablesOk(db) && p in RunningOf(db.jobs, b) && q in RunningOf(db.jobs, b)
    ensures db.jobs[p].claimedUntil == db.jobs[q].claimedUntil
  {
    assert RowOk(db, p) && RowOk(db, q) && BatchOk(db, b);
  }

  /** The two tables tell one story: a job runs exactly while its batch does, a running
      batch has exactly the jobs it claimed, under one lease, and an owner runs one batch. */
  lemma TablesAgree(s: System)
    requires Reachable(s)
    ensures forall q :: q in s.db.jobs && s.db.jobs[q].batch.Some? ==>
              && s.db.jobs[q].batch.value in s.db.batches
              && (s.db.jobs[q].status.Running? <==> IsRunning(s.db, s.db.jobs[q].batch.value))
    ensures forall q :: q in s.db.jobs && s.db.jobs[q].status.Running? ==> s.db.jobs[q].batch.Some?
    ensures forall b :: IsRunning(s.db, b) ==>
              && |RunningOf(s.db.jobs, b)| == s.db.batches[b].jobCount
              && forall q :: q in RunningOf(s.db.jobs, b) <==> q in s.db.batches[b].jobIds
    ensures forall b, p, q :: p in RunningOf(s.db.jobs, b) && q in RunningOf(s.db.jobs, b) ==>
              s.db.jobs[p].claimedUntil == s.db.jobs[q].claimedUntil
    ensures forall p, q | p in s.db.jobs && q in s.db.jobs && s.db.jobs[p].status.Running? && s.db.jobs[q].status.Running?
                          && s.db.jobs[p].owner == s.db.jobs[q].owner
              :: s.db.jobs[p].batch == s.db.jobs[q].batch
  {
    ReachableInv(s);
    RowsAgree(s.db);
    hide TablesOk, RunningOf;
    forall b | IsRunning(s.db, b)
      ensures |RunningOf(s.db.jobs, b)| == s.db.batches[b].jobCount
      ensures forall q :: q in RunningOf(s.db.jobs, b) <==> q in s.db.batches[b].jobIds
    {
      RunningBatchAgrees(s.db, b);
    }
    forall b, p, q | p in RunningOf(s.db.jobs, b) && q in RunningOf(s.db.jobs, b)
      ensures s.db.jobs[p].claimedUntil == s.db.jobs[q].claimedUntil
    {
      OneClaim(s.db, b, p, q);
    }
  }

  /** The commit transaction's test never refuses a batch that is still running. */
  lemma CommitRefusedOnlyWhenReleased(s: System, w: nat, clearRaw: bool)
    requires Reachable(s) && PcOf(s, w).Ready?
    ensures |ApplyCommit(s, w, clearRaw).db.events| == |s.db.events| + (if IsRunning(s.db, PcOf(s, w).b) then 1 else 0)
  {
    ReachableInv(s);
    assert Holds(s.db, s.workers[w]);
    RunningCountIsExact(s.db, PcOf(s, w).b);
  }

  // ---------------------------------------------------------------- at most once

  /** Every committed batch is in the table, and no job is in two of them. */
  lemma AtMostOneEffect(s: System)
    requires Reachable(s)
    ensures forall i :: 0 <= i < |s.db.events| && s.db.events[i].batch.Some? ==> s.db.events[i].batch.value in s.db.batches
    ensures forall i, j, q | 0 <= i < |s.db.events| && 0 <= j < |s.db.events|
                             && s.db.events[i].batch.Some? && s.db.events[j].batch.Some?
                             && q in s.db.batches[s.db.events[i].batch.value].jobIds
                             && q in s.db.batches[s.db.events[j].batch.value].jobIds
              :: i == j
  {
    ReachableInv(s);
    forall i | 0 <= i < |s.db.events| && s.db.events[i].batch.Some?
      ensures s.db.events[i].batch.value in s.db.batches && CommittedOk(s.db, s.db.events[i].batch.value)
    {
      assert CommittedOk(s.db, s.db.events[i].batch.value);
    }
  }

  predicate WorkerAction(a: Action)
  {
    a.Claim? || a.List? || a.FinishBarrier? || a.ReadMood? || a.Evaluate? || a.Check? || a.Stamp? || a.Commit?
    || a.GiveUp? || a.MarkFailed? || a.Crash?
  }

  /** A worker whose claim was released changes no job, no mood row and no event with
      anything it still does for that batch. */
  lemma ReleasedWorkerIsHarmless(s: System, w: nat, a: Action)
    requires Reachable(s) && !PcOf(s, w).Idle? && !IsRunning(s.db, PcOf(s, w).b)
    requires WorkerAction(a) && a.w == w && Enabled(s, a)
    ensures Apply(s, a).db.jobs == s.db.jobs
    ensures Apply(s, a).db.moods == s.db.moods && Apply(s, a).db.events == s.db.events
  {
    ReachableInv(s);
    assert Holds(s.db, s.workers[w]);
    match a {
      case MarkFailed(_, now, cfg, clearRaw) =>
        var retry, retryAt := MarkFailedUnfolds(s, w, now, cfg, clearRaw);
      case _ =>
    }
  }

  // ---------------------------------------------------------------- failure

  /** failBatch decides retry or failure for the whole batch, yet its effect is decided job by
      job: a retryable failure requeues exactly the jobs with attempts left. */
  lemma FailureIsPerJob(s: System, w: nat, now: int, cfg: RetryConfig, clearRaw: bool, q: nat)
    requires Reachable(s) && PcOf(s, w).Failing? && IsRunning(s.db, PcOf(s, w).b)
    requires q in s.db.jobs && s.db.jobs[q].batch == Some(PcOf(s, w).b)
    ensures var job := s.db.jobs[q];
            var jobs := ApplyMarkFailed(s, w, now, cfg, clearRaw).db.jobs;
            && q in jobs
            && (if PcOf(s, w).retryable && job.attempts < job.maxAttempts
                then jobs[q].status.Pending? && jobs[q].batch.None? && jobs[q].runAfter > now
                else jobs[q].status.Failed? && jobs[q].batch == job.batch)
  {
    ReachableInv(s);
    var pc := s.workers[w];
    assert Holds(s.db, pc);
    var retry, retryAt := MarkFailedUnfolds(s, w, now, cfg, clearRaw);
    if pc.retryable {
      ListContents(s.db.jobs, pc.b, 0, s.db.nextSeq);
      assert s.db.jobs[q] in pc.jobs;
    }
    DelayIsPositive(BaseDelay(cfg), MaxDelay(cfg), Attempts(pc.jobs));
  }

  /** So when a worker gives a running batch up and marks it failed, each of its jobs is back in the
      queue, to run again after the delay, if the cause allows a retry and the job has attempts left,
      and has failed otherwise. */
  lemma GivenUpPerJob(s: System, w: nat, retryable: bool, now: int, cfg: RetryConfig, clearRaw: bool, q: nat)
    requires Reachable(s) && Enabled(s, GiveUp(w, retryable)) && IsRunning(s.db, PcOf(s, w).b) && s.clock < now
    requires q in s.db.jobs && s.db.jobs[q].batch == Some(PcOf(s, w).b)
    ensures var given := Apply(s, GiveUp(w, retryable));
            && Enabled(given, MarkFailed(w, now, cfg, clearRaw))
            && var after := Apply(given, MarkFailed(w, now, cfg, clearRaw)).db;
               var job := s.db.jobs[q];
               && q in after.jobs && !IsRunning(after, PcOf(s, w).b)
               && (if retryable && job.attempts < job.maxAttempts
                   then after.jobs[q] == job.(status := Pending, batch := None, claimedUntil := None,
                                              runAfter := now + RetryDelay(cfg, PcOf(given, w).jobs))
                   else after.jobs[q].status == Failed && after.jobs[q].batch == job.batch)
  {
    hide Inv, ApplyMarkFailed, RetryDelay;
    ReachableInv(s);
    StepKeepsInv(s, GiveUp(w, retryable));
    FailedRow(Apply(s, GiveUp(w, retryable)), w, now, cfg, clearRaw, q);
  }

  lemma FailedRow(s: System, w: nat, now: int, cfg: RetryConfig, clearRaw: bool, q: nat)
    requires Inv(s) && PcOf(s, w).Failing? && IsRunning(s.db, PcOf(s, w).b)
    requires q in s.db.jobs && s.db.jobs[q].batch == Some(PcOf(s, w).b)
    ensures var after := ApplyMarkFailed(s, w, now, cfg, clearRaw).db;
            var job := s.db.jobs[q];
            && q in after.jobs && !IsRunning(after, PcOf(s, w).b)
            && (if PcOf(s, w).retryable && job.attempts < job.maxAttempts
                then after.jobs[q] == job.(status := Pending, batch := None, claimedUntil := None,
                                           runAfter := now + RetryDelay(cfg, PcOf(s, w).jobs))
                else after.jobs[q].status == Failed && after.jobs[q].batch == job.batch)
  {
    var pc := PcOf(s, w);
    assert Holds(s.db, s.workers[w]);
    var retry, retryAt := MarkFailedUnfolds(s, w, now, cfg, clearRaw);
    if pc.retryable {
      ListContents(s.db.jobs, pc.b, 0, s.db.nextSeq);
      assert s.db.jobs[q] in pc.jobs;
    }
    hide Inv, MarkFailedTx, RetryDelay, ApplyMarkFailed;
    FailureWrites(s.db, pc.b, retry, retryAt, clearRaw, q);
  }

  lemma DelayIsPositive(base: int, maxDelay: int, attempts: nat)
    requires base > 0 && maxDelay > 0 && attempts >= 1
    ensures Delay(base, maxDelay, attempts) > 0
  {
    DoubledMonotone(base, 0, attempts - 1);
  }

  // ---------------------------------------------------------------- attempts

  /** A job's attempt count is the number of batches that claimed it, and exceeds its maximum
      (read as at least 1) by no more than the number of those whose claim expired. */
  lemma AttemptsAreBounded(s: System, q: nat)
    requires Reachable(s) && q in s.db.jobs
    ensures s.db.jobs[q].attempts == |ClaimsOf(s.db, q)|
    ensures |ClaimsOf(s.db, q)| <= Cap(s.db.jobs[q]) + |ExpiriesOf(s.db, q)|
  {
    ReachableRows(s);
    assert AttemptOk(s.db, q);
  }

  // ---------------------------------------------------------------- order

  /** In a reachable state no claim takes a job past a due barrier of its owner. */
  lemma BarriersHold(s: System, now: int, opts: ClaimOptions, bar: nat, q: nat)
    requires Reachable(s) && s.clock < now
    requires var db := ReleaseTx(s.db, now);
             && q in Picked(db, now, opts) && bar in db.jobs && Due(db.jobs[bar], now)
             && db.jobs[bar].jobType.Barrier? && db.jobs[bar].owner == db.jobs[q].owner
    ensures q <= bar && (q == bar ==> Picked(ReleaseTx(s.db, now), now, opts) == [bar])
  {
    ReachableRows(s);
    ReleaseKeepsOrder(s.db, now);
    NoClaimPassesBarrier(ReleaseTx(s.db, now), now, opts, bar, q);
  }

  lemma ReleaseKeepsOrder(db: Db, now: int)
    requires KeysBelow(db) && CreatedInOrder(db.jobs)
    ensures KeysBelow(ReleaseTx(db, now)) && CreatedInOrder(ReleaseTx(db, now).jobs)
  {
  }
}
