/** The store as the program runs it: rows updated in place, one method per
    transaction.  Every method's effect is the transaction function of JobTables. */
module JobStore {
  import opened Wrappers
  import opened JobTables

  class Store {
    var jobs: map<nat, Job>
    var batches: map<nat, Batch>
    var moods: seq<MoodRow>
    var events: seq<MoodEvent>
    var nextSeq: nat

    function Contents(): Db
      reads this
    {
      Db(jobs, batches, moods, events, nextSeq)
    }

    constructor ()
      ensures Contents() == Db(map[], map[], [], [], 1)
    {
      jobs, batches, moods, events, nextSeq := map[], map[], [], [], 1;
    }

    method Enqueue(req: NewJob, now: int) returns (seqNo: nat)
      modifies this
      ensures seqNo == old(nextSeq)
      ensures Contents() == EnqueueTx(old(Contents()), req, now)
    {
      var runAfter := req.runAfter;
      if runAfter == ZERO_TIME {
        runAfter := now;
      }
      var maxAttempts := req.maxAttempts;
      if maxAttempts == 0 {
        maxAttempts := 3;
      }
      seqNo := nextSeq;
      nextSeq := nextSeq + 1;
      jobs := jobs[seqNo := Job(req.persona, req.session, req.owner, req.jobType, req.batchable, Pending,
                                runAfter, 0, maxAttempts, None, None, now, req.chars)];
    }

    method ReleaseExpired(now: int)
      modifies this
      ensures Contents() == ReleaseTx(old(Contents()), now)
    {
      var ids := ExpiredBatches(jobs, now);
      ghost var before := batches;
      var todo := ids;
      while todo != {}
        invariant todo <= ids
        invariant jobs == old(jobs) && moods == old(moods) && events == old(events) && nextSeq == old(nextSeq)
        invariant batches.Keys == before.Keys
        invariant forall b :: b in before ==>
                    batches[b] == if b in ids - todo then ExpireBatch(before[b]) else before[b]
        decreases todo
      {
        var b :| b in todo;
        if b in batches && batches[b].status.BatchRunning? {
          batches := batches[b := batches[b].(status := BatchFailed, expired := true)];
        }
        todo := todo - {b};
      }
      jobs := map q | q in jobs ::
        if Expired(jobs[q], now) then jobs[q].(status := Pending, batch := None, claimedUntil := None) else jobs[q];
    }

    method GetFirstClaimable(now: int, minWait: int) returns (first: Option<nat>)
      ensures first == FirstClaimable(jobs, FirstRows(Contents(), now), now, minWait)
    {
      var rows := FirstRows(Contents(), now);
      var i := 0;
      while i < |rows|
        invariant 0 <= i <= |rows|
        invariant FirstClaimable(jobs, rows, now, minWait) == FirstClaimable(jobs, rows[i..], now, minWait)
      {
        assert rows[i] in rows;
        var job := jobs[rows[i]];
        if Waited(job, now, minWait) {
          if !OwnerRunning(jobs, job.owner) {
            return Some(rows[i]);
          }
        }
        assert rows[i..][1..] == rows[i + 1..];
        i := i + 1;
      }
      return None;
    }

    method SelectContiguous(first: nat, now: int, opts: ClaimOptions) returns (picked: seq<nat>)
      requires first in jobs
      ensures var rows := CandidateRows(Contents(), now, first, opts);
              picked == rows[..Extend(jobs, rows, jobs[first], opts, 0, 0)]
    {
      var rows := CandidateRows(Contents(), now, first, opts);
      picked := TakeWhileAdmissible(jobs, rows, jobs[first], opts);
    }

    /** The loop over the candidate rows. */
    static method TakeWhileAdmissible(jobs: map<nat, Job>, rows: seq<nat>, first: Job, opts: ClaimOptions)
      returns (picked: seq<nat>)
      requires forall q :: q in rows ==> q in jobs
      ensures picked == rows[..Extend(jobs, rows, first, opts, 0, 0)]
    {
      picked := [];
      var usedTokens: nat := 0;
      ghost var n := Extend(jobs, rows, first, opts, 0, 0);
      while |picked| < |rows|
        invariant |picked| <= |rows| && picked == rows[..|picked|]
        invariant n == Extend(jobs, rows, first, opts, |picked|, usedTokens)
      {
        var row := rows[|picked|];
        var job := jobs[row];
        if !Joins(first, job, opts) {
          return;
        }
        var jobTokens := TokenEstimate(job);
        if opts.maxInputTokens > 0 && |picked| > 0 && usedTokens + jobTokens > opts.maxInputTokens {
          return;
        }
        if Solitary(job) {
          if |picked| == 0 {
            picked := picked + [row];
          }
          return;
        }
        picked := picked + [row];
        usedTokens := usedTokens + jobTokens;
        if |picked| >= MaxJobs(opts) {
          return;
        }
      }
    }

    /** `b` is the new batch's id, fresh among the batches. */
    method ClaimNextBatch(now: int, opts: ClaimOptions, b: nat) returns (claimed: Option<nat>)
      requires b !in batches
      modifies this
      ensures (Contents(), claimed) == ClaimTx(old(Contents()), now, opts, b)
    {
      hide ReleaseTx, InsertClaim, Extend;
      ReleaseExpired(now);
      var first := GetFirstClaimable(now, opts.minWait);
      if first.None? {
        return None;
      }
      if first.value !in jobs {
        return None;
      }
      var picked := SelectContiguous(first.value, now, opts);
      if |picked| == 0 {
        return None;
      }
      assert picked == Picked(Contents(), now, opts);
      assert picked[0] in picked;
      InsertBatchAndMarkRunning(picked, b, now + ClaimTTL(opts));
      return Some(b);
    }

    static lemma ClaimedOnce(job: Job, b: nat, until: int)
      ensures ClaimJob(ClaimJob(job, b, until), b, until) == ClaimJob(job, b, until)
    {}

    method InsertBatchAndMarkRunning(picked: seq<nat>, b: nat, claimedUntil: int)
      requires |picked| > 0 && picked[0] in jobs
      modifies this
      ensures Contents() == InsertClaim(old(Contents()), picked, b, claimedUntil)
    {
      hide ClaimJob, BatchRecord;
      batches := batches[b := BatchRecord(jobs, picked)];
      var i := 0;
      while i < |picked|
        invariant 0 <= i <= |picked|
        invariant batches == old(batches)[b := BatchRecord(old(jobs), picked)]
        invariant moods == old(moods) && events == old(events) && nextSeq == old(nextSeq)
        invariant jobs.Keys == old(jobs).Keys
        invariant forall q :: q in jobs ==>
                    jobs[q] == if q in picked[..i] then ClaimJob(old(jobs)[q], b, claimedUntil) else old(jobs)[q]
      {
        var q := picked[i];
        if q in jobs {
          ClaimedOnce(old(jobs)[q], b, claimedUntil);
          jobs := jobs[q := ClaimJob(jobs[q], b, claimedUntil)];
        }
        i := i + 1;
      }
      assert picked[..i] == picked;
      assert jobs == InsertClaim(old(Contents()), picked, b, claimedUntil).jobs;
    }

    method MarkBatchDone(b: nat, clearRaw: bool)
      modifies this
      ensures Contents() == MarkDoneTx(old(Contents()), b, clearRaw)
    {
      if b in batches {
        batches := batches[b := batches[b].(status := BatchDone)];
      }
      jobs := map q | q in jobs ::
        if jobs[q].batch == Some(b)
        then jobs[q].(status := Done, chars := if clearRaw then 0 else jobs[q].chars)
        else jobs[q];
    }

    /** Scheduling the retries and failing the rest is failing each job by its own attempts. */
    static lemma FailedInTwoSteps(job: Job, b: nat, retryAt: int, clearRaw: bool)
      requires job.batch == Some(b)
      ensures var first := if job.attempts < job.maxAttempts then FailJob(job, true, retryAt, false) else job;
              FailJob(job, true, retryAt, clearRaw)
              == if first.batch == Some(b) then FailJob(first, false, 0, false) else first
    {}

    static lemma FailedForGood(jobs: map<nat, Job>, retryAt: int, clearRaw: bool)
      ensures forall q :: q in jobs ==> FailJob(jobs[q], false, retryAt, clearRaw) == FailJob(jobs[q], false, 0, clearRaw)
    {}

    method MarkBatchFailed(b: nat, retry: bool, retryAt: int, clearRaw: bool)
      modifies this
      ensures Contents() == MarkFailedTx(old(Contents()), b, retry, retryAt, clearRaw)
    {
      hide FailJob;
      if b in batches {
        batches := batches[b := batches[b].(status := BatchFailed)];
      }
      if retry {
        ScheduleRetries(b, retryAt);
        FailRest(b, false);
        forall q | q in jobs && old(jobs)[q].batch == Some(b)
          ensures jobs[q] == FailJob(old(jobs)[q], true, retryAt, clearRaw)
        {
          FailedInTwoSteps(old(jobs)[q], b, retryAt, clearRaw);
        }
      } else {
        FailRest(b, clearRaw);
        FailedForGood(old(jobs), retryAt, clearRaw);
      }
      assert jobs.Keys == MarkFailedTx(old(Contents()), b, retry, retryAt, clearRaw).jobs.Keys;
      assert jobs == MarkFailedTx(old(Contents()), b, retry, retryAt, clearRaw).jobs;
    }

    /** The first of the two row updates of a retried batch: the jobs with attempts left. */
    method ScheduleRetries(b: nat, retryAt: int)
      modifies this`jobs
      ensures jobs.Keys == old(jobs).Keys
      ensures forall q :: q in jobs ==>
                jobs[q] == if old(jobs)[q].batch == Some(b) && old(jobs)[q].attempts < old(jobs)[q].maxAttempts
                           then FailJob(old(jobs)[q], true, retryAt, false) else old(jobs)[q]
    {
      jobs := map q | q in jobs ::
        if jobs[q].batch == Some(b) && jobs[q].attempts < jobs[q].maxAttempts
        then FailJob(jobs[q], true, retryAt, false)
        else jobs[q];
    }

    /** The update that fails every job still in the batch. */
    method FailRest(b: nat, clearRaw: bool)
      modifies this`jobs
      ensures jobs.Keys == old(jobs).Keys
      ensures forall q :: q in jobs ==>
                jobs[q] == if old(jobs)[q].batch == Some(b) then FailJob(old(jobs)[q], false, 0, clearRaw) else old(jobs)[q]
    {
      jobs := map q | q in jobs ::
        if jobs[q].batch == Some(b) then FailJob(jobs[q], false, 0, clearRaw) else jobs[q];
    }

    method CommitBatchEvaluation(b: nat, row: MoodRow, event: MoodEvent, clearRaw: bool) returns (ok: bool)
      modifies this
      ensures ok == CommitTx(old(Contents()), b, row, event, clearRaw).Some?
      ensures Contents() == if ok then CommitTx(old(Contents()), b, row, event, clearRaw).value else old(Contents())
    {
      if b !in batches || !batches[b].status.BatchRunning? {
        return false;
      }
      var expectedJobs := batches[b].jobCount;
      var runningJobs := |RunningOf(jobs, b)|;
      if expectedJobs <= 0 || runningJobs != expectedJobs {
        return false;
      }
      moods := moods + [row];
      events := events + [event];
      MarkBatchDone(b, clearRaw);
      return true;
    }

    /** Err is the refusal of a request that names no owner, no persona and not all. */
    method SupersedePendingJobs(scope: SupersedeScope) returns (r: Result<nat, ()>)
      modifies this
      ensures r.Err? <==> scope.Unscoped?
      ensures Contents() == SupersedeTx(old(Contents()), scope)
      ensures r.Ok? ==> r.value == |set q | q in old(jobs) && old(jobs)[q].status.Pending? && InScope(scope, old(jobs)[q])|
    {
      if scope.Unscoped? {
        assert jobs == SupersedeTx(old(Contents()), scope).jobs;
        return Err(());
      }
      var hit := set q | q in jobs && jobs[q].status.Pending? && InScope(scope, jobs[q]);
      jobs := map q | q in jobs :: if q in hit then jobs[q].(status := Superseded) else jobs[q];
      return Ok(|hit|);
    }

    method ClearFailedJobs(query: JobQuery) returns (count: nat)
      modifies this
      ensures Contents() == ClearFailedTx(old(Contents()), query)
      ensures count == |set q | q in old(jobs) && old(jobs)[q].status.Failed? && Matches(query, old(jobs)[q])|
    {
      var hit := set q | q in jobs && jobs[q].status.Failed? && Matches(query, jobs[q]);
      jobs := map q | q in jobs && q !in hit :: jobs[q];
      return |hit|;
    }

    method CommitStateEvent(row: MoodRow, event: MoodEvent)
      modifies this
      ensures Contents() == CommitStateEventTx(old(Contents()), row, event)
    {
      moods := moods + [row];
      events := events + [event];
    }
  }
}
