/** What the queue's transactions do, said in the columns of the rows alone. */
module QueueRows {
  import opened Wrappers
  import opened JobTables
  import opened JobSelection
  import opened TableInvariant

  // ---------------------------------------------------------------- which rows a claim takes

  /** Pending, and its time has come. */
  predicate Ripe(job: Job, now: int)
  {
    job.status == Pending && job.runAfter <= now
  }

  /** Old enough to start a batch; a job without creation time always is. */
  predicate Rested(job: Job, now: int, minWait: int)
  {
    minWait <= 0 || job.createdAt == 0 || job.createdAt + minWait <= now
  }

  ghost predicate Free(jobs: map<nat, Job>, owner: MoodOwner)
  {
    forall q :: q in jobs && jobs[q].owner == owner ==> jobs[q].status != Running
  }

  /** One job in four characters of raw text and one more, or one when there is none. */
  function Cost(job: Job): nat
  {
    if job.chars > 0 then 1 + job.chars / 4 else 1
  }

  function CostOf(jobs: map<nat, Job>, rows: seq<nat>): nat
    requires forall q :: q in rows ==> q in jobs
  {
    if rows == [] then 0 else CostOf(jobs, rows[..|rows| - 1]) + Cost(jobs[rows[|rows| - 1]])
  }

  /** These rows may be one batch: one owner, one type, one session if batches are split by it, none
      created too long after the first, within the size and, for several, within the budget, with no
      barrier and nothing that goes alone among them. */
  ghost predicate Fits(jobs: map<nat, Job>, rows: seq<nat>, opts: ClaimOptions)
    requires forall q :: q in rows ==> q in jobs
  {
    && rows != []
    && |rows| <= (if opts.maxJobs > 0 then opts.maxJobs else 1)
    && (forall i :: 0 <= i < |rows| ==>
          var (first, job) := (jobs[rows[0]], jobs[rows[i]]);
          && job.owner == first.owner && job.jobType == first.jobType
          && (opts.splitSessions ==> job.session == first.session)
          && (opts.maxAge > 0 && job.createdAt != 0 && first.createdAt != 0 ==> job.createdAt <= first.createdAt + opts.maxAge))
    && (|rows| > 1 ==>
          && (forall i :: 0 <= i < |rows| ==> jobs[rows[i]].jobType != Barrier && jobs[rows[i]].batchable)
          && (opts.maxInputTokens > 0 ==> CostOf(jobs, rows) <= opts.maxInputTokens))
  }

  lemma {:induction false} CostIsSum(jobs: map<nat, Job>, rows: seq<nat>)
    requires forall q :: q in rows ==> q in jobs
    ensures CostOf(jobs, rows) == TokenSum(jobs, rows)
  {
    if rows != [] {
      CostIsSum(jobs, rows[..|rows| - 1]);
    }
  }

  lemma FitsIsAdmissible(jobs: map<nat, Job>, rows: seq<nat>, opts: ClaimOptions, k: nat)
    requires (forall q :: q in rows ==> q in jobs) && 1 <= k <= |rows|
    ensures Fits(jobs, rows[..k], opts) <==> Admissible(jobs, rows, jobs[rows[0]], opts, k)
  {
    CostIsSum(jobs, rows[..k]);
    hide TokenSum, CostOf;
    assert rows[..k] != [] && forall i :: 0 <= i < k ==> rows[..k][i] == rows[i];
    if Fits(jobs, rows[..k], opts) {
      forall i | 0 <= i < k ensures Joins(jobs[rows[0]], jobs[rows[i]], opts) && (k > 1 ==> !Solitary(jobs[rows[i]])) {
        assert rows[..k][i] == rows[i];
      }
    }
    if Admissible(jobs, rows, jobs[rows[0]], opts, k) {
      forall i | 0 <= i < k ensures Joins(jobs[rows[0]], jobs[rows[..k][i]], opts) && (k > 1 ==> !Solitary(jobs[rows[..k][i]])) {
        assert rows[..k][i] == rows[i];
      }
    }
  }

  lemma RipeIsDue(job: Job, now: int, minWait: int)
    ensures Ripe(job, now) <==> Due(job, now)
    ensures Rested(job, now, minWait) <==> Waited(job, now, minWait)
  {}

  /** A claimed batch fits, and its rows are the ripe ones of the table from its first on; the next
      ripe row does not fit in as well. */
  lemma BatchIsFull(db: Db, now: int, opts: ClaimOptions)
    requires KeysBelow(db) && Picked(db, now, opts) != []
    ensures var picked := Picked(db, now, opts);
            && (forall q :: q in picked ==> q in db.jobs && Ripe(db.jobs[q], now))
            && Fits(db.jobs, picked, opts)
            && Rested(db.jobs[picked[0]], now, opts.minWait) && Free(db.jobs, db.jobs[picked[0]].owner)
            && (forall i, j :: 0 <= i < j < |picked| ==> picked[i] < picked[j])
            && (forall q :: q in db.jobs && Ripe(db.jobs[q], now) && picked[0] <= q <= picked[|picked| - 1] ==> q in picked)
            && (forall next :: next in db.jobs && Ripe(db.jobs[next], now) && picked[|picked| - 1] < next
                               && (forall q :: q in db.jobs && Ripe(db.jobs[q], now) && picked[|picked| - 1] < q ==> next <= q)
                  ==> !Fits(db.jobs, picked + [next], opts))
  {
    var picked := Picked(db, now, opts);
    var rows := DueRows(db.jobs, now, picked[0], db.nextSeq);
    PickedIsLongestRun(db, now, opts);
    PickedIsOneOwner(db, now, opts);
    PickedUnfolds(db, now, opts);
    FitsIsAdmissible(db.jobs, rows, opts, |picked|);
    assert rows[0] == picked[0];
    RipeIsDue(db.jobs[picked[0]], now, opts.minWait);
    hide Picked, Fits, FirstClaimable, IsLongest, CandidateRows, FirstRows;
    forall q | q in db.jobs && Ripe(db.jobs[q], now) && picked[0] <= q <= picked[|picked| - 1] ensures q in picked {
      PickedIsContiguous(db, now, opts, q);
    }
    forall next | next in db.jobs && Ripe(db.jobs[next], now) && picked[|picked| - 1] < next
                  && (forall q :: q in db.jobs && Ripe(db.jobs[q], now) && picked[|picked| - 1] < q ==> next <= q)
      ensures !Fits(db.jobs, picked + [next], opts)
    {
      NextDoesNotFit(db, now, opts, picked, rows, next);
    }
  }

  lemma NextDoesNotFit(db: Db, now: int, opts: ClaimOptions, picked: seq<nat>, rows: seq<nat>, next: nat)
    requires KeysBelow(db) && picked != [] && rows == DueRows(db.jobs, now, picked[0], db.nextSeq)
    requires |picked| <= |rows| && picked == rows[..|picked|] && picked[0] in db.jobs
    requires IsLongest(db.jobs, rows, db.jobs[picked[0]], opts, |picked|)
    requires next in db.jobs && Ripe(db.jobs[next], now) && picked[|picked| - 1] < next
    requires forall q :: q in db.jobs && Ripe(db.jobs[q], now) && picked[|picked| - 1] < q ==> next <= q
    ensures forall q :: q in picked + [next] ==> q in db.jobs
    ensures !Fits(db.jobs, picked + [next], opts)
  {
    hide Fits, Admissible, CostOf;
    var k := |picked|;
    NextRow(db, now, picked, rows, next);
    assert rows[..k + 1] == picked + [next];
    assert forall q :: q in rows[..k + 1] ==> q in rows;
    FitsIsAdmissible(db.jobs, rows, opts, k + 1);
    assert !Admissible(db.jobs, rows, db.jobs[rows[0]], opts, k + 1);
  }

  lemma NextRow(db: Db, now: int, picked: seq<nat>, rows: seq<nat>, next: nat)
    requires KeysBelow(db) && picked != [] && rows == DueRows(db.jobs, now, picked[0], db.nextSeq)
    requires |picked| <= |rows| && picked == rows[..|picked|]
    requires next in db.jobs && Ripe(db.jobs[next], now) && picked[|picked| - 1] < next
    requires forall q :: q in db.jobs && Ripe(db.jobs[q], now) && picked[|picked| - 1] < q ==> next <= q
    ensures |picked| < |rows| && rows[|picked|] == next && rows[0] == picked[0]
  {
    hide DueRows;
    var k := |picked|;
    assert picked[0] == rows[0] && picked[k - 1] == rows[k - 1];
    assert picked[0] <= picked[k - 1] < next;
    assert next in rows;
    var i :| 0 <= i < |rows| && rows[i] == next;
    assert rows[k] in rows && rows[k - 1] < rows[k] <= next;
  }

  // ---------------------------------------------------------------- when a claim finds nothing

  /** The ripe rows before q. */
  function RipeBefore(jobs: map<nat, Job>, now: int, q: nat): set<nat>
  {
    set p | p in jobs && p < q && Ripe(jobs[p], now)
  }

  lemma ScannedIff(db: Db, now: int, q: nat)
    requires KeysBelow(db) && q in db.jobs && Ripe(db.jobs[q], now)
    ensures q in FirstRows(db, now) <==> |RipeBefore(db.jobs, now, q)| < 100
  {
    hide DueRows;
    var rows := DueRows(db.jobs, now, 0, db.nextSeq);
    assert q in rows;
    var i :| 0 <= i < |rows| && rows[i] == q;
    RowsBefore(rows, i, RipeBefore(db.jobs, now, q));
    DistinctCount(rows[..i], RipeBefore(db.jobs, now, q));
    InLimitIff(rows, 100, i);
  }

  lemma RowsBefore(rows: seq<nat>, i: nat, before: set<nat>)
    requires i < |rows| && forall j, k :: 0 <= j < k < |rows| ==> rows[j] < rows[k]
    requires forall p :: p in before <==> p in rows && p < rows[i]
    ensures forall p :: p in before <==> p in rows[..i]
  {
    forall p | p in before ensures p in rows[..i] {
      var j :| 0 <= j < |rows| && rows[j] == p;
      assert rows[..i][j] == p;
    }
  }

  lemma InLimitIff(rows: seq<nat>, n: nat, i: nat)
    requires i < |rows| && forall j, k :: 0 <= j < k < |rows| ==> rows[j] < rows[k]
    ensures rows[i] in Limit(rows, n) <==> i < n
  {
    if i < n {
      assert Limit(rows, n)[i] == rows[i];
    }
  }

  /** A claim finds nothing exactly when every ripe job that has rested and whose owner is free has a
      hundred ripe jobs before it; otherwise its batch starts with the first such job that has not. */
  lemma NothingFoundIff(db: Db, now: int, opts: ClaimOptions)
    requires KeysBelow(db)
    ensures Picked(db, now, opts) == []
            <==> (forall q | q in db.jobs && Ripe(db.jobs[q], now) && Rested(db.jobs[q], now, opts.minWait)
                             && Free(db.jobs, db.jobs[q].owner) :: |RipeBefore(db.jobs, now, q)| >= 100)
    ensures Picked(db, now, opts) != [] ==>
              var first := Picked(db, now, opts)[0];
              forall q | q in db.jobs && Ripe(db.jobs[q], now) && Rested(db.jobs[q], now, opts.minWait)
                         && Free(db.jobs, db.jobs[q].owner) && |RipeBefore(db.jobs, now, q)| < 100 :: first <= q
  {
    PickedUnfolds(db, now, opts);
    FirstClaimableIsLeast(db.jobs, FirstRows(db, now), now, opts.minWait);
    forall q | q in db.jobs
      ensures Ripe(db.jobs[q], now) ==> (q in FirstRows(db, now) <==> |RipeBefore(db.jobs, now, q)| < 100)
      ensures Claimable(db.jobs, q, now, opts.minWait)
              <==> Rested(db.jobs[q], now, opts.minWait) && Free(db.jobs, db.jobs[q].owner)
    {
      if Ripe(db.jobs[q], now) {
        ScannedIff(db, now, q);
      }
    }
    hide Picked, FirstClaimable, RipeBefore, CandidateRows, IsLongest, Claimable;
  }

  // ---------------------------------------------------------------- what the other transactions write

  /** A claimed row runs in the new batch, under its lease, with one attempt more; no other changes. */
  lemma ClaimWrites(db: Db, picked: seq<nat>, b: nat, until: int, q: nat)
    requires Selected(db, picked) && q in db.jobs
    ensures var after := InsertClaim(db, picked, b, until);
            && after.jobs.Keys == db.jobs.Keys
            && after.jobs[q] == (if q in picked
                                 then db.jobs[q].(status := Running, batch := Some(b), claimedUntil := Some(until),
                                                  attempts := db.jobs[q].attempts + 1)
                                 else db.jobs[q])
            && var first := db.jobs[picked[0]];
               after.batches == db.batches[b := Batch(first.persona, first.owner, first.jobType, BatchRunning, |picked|, picked, false)]
  {}

  /** An enqueued job without a time of its own is ripe at once, for every poll from then on, and one
      without a maximum may be tried three times. */
  lemma EnqueuedIsRipe(db: Db, req: NewJob, now: int, later: int)
    requires now <= later
    ensures var job := EnqueueTx(db, req, now).jobs[db.nextSeq];
            && (Ripe(job, later) <==> req.runAfter == 0 || req.runAfter <= later)
            && job.createdAt == now && job.attempts == 0 && job.batch.None? && job.claimedUntil.None?
            && job.maxAttempts == (if req.maxAttempts == 0 then 3 else req.maxAttempts)
            && job.persona == req.persona && job.session == req.session && job.owner == req.owner
            && job.jobType == req.jobType && job.batchable == req.batchable && job.chars == req.chars
  {}

  /** After a batch is marked failed, each of its jobs waits for its next attempt, with its text, if
      the batch may be retried and the job has attempts left; otherwise it has failed, and its text
      is gone if that was asked for and the batch may not be retried. */
  lemma FailureWrites(db: Db, b: nat, retry: bool, retryAt: int, clearRaw: bool, q: nat)
    requires q in db.jobs
    ensures var after := MarkFailedTx(db, b, retry, retryAt, clearRaw);
            && after.jobs.Keys == db.jobs.Keys
            && (db.jobs[q].batch != Some(b) ==> after.jobs[q] == db.jobs[q])
            && (db.jobs[q].batch == Some(b) && retry && db.jobs[q].attempts < db.jobs[q].maxAttempts ==>
                  after.jobs[q] == db.jobs[q].(status := Pending, batch := None, claimedUntil := None, runAfter := retryAt))
            && (db.jobs[q].batch == Some(b) && !(retry && db.jobs[q].attempts < db.jobs[q].maxAttempts) ==>
                  after.jobs[q] == db.jobs[q].(status := Failed, chars := if clearRaw && !retry then 0 else db.jobs[q].chars))
            && (b in db.batches ==> after.batches == db.batches[b := db.batches[b].(status := BatchFailed)])
  {}

  /** After a batch is marked done all its jobs are, and no others. */
  lemma DoneWrites(db: Db, b: nat, clearRaw: bool, q: nat)
    requires q in db.jobs
    ensures var after := MarkDoneTx(db, b, clearRaw);
            && after.jobs.Keys == db.jobs.Keys
            && after.jobs[q] == (if db.jobs[q].batch == Some(b)
                                 then db.jobs[q].(status := Done, chars := if clearRaw then 0 else db.jobs[q].chars)
                                 else db.jobs[q])
            && (b in db.batches ==> after.batches == db.batches[b := db.batches[b].(status := BatchDone)])
  {}

  /** Superseding reaches the pending jobs of the owner, or of the persona, or all of them. */
  lemma SupersededIff(db: Db, scope: SupersedeScope, q: nat)
    requires q in db.jobs
    ensures var after := SupersedeTx(db, scope);
            && after == db.(jobs := after.jobs) && after.jobs.Keys == db.jobs.Keys
            && after.jobs[q] == (if db.jobs[q].status == Pending
                                    && (scope == All || scope == ByOwner(db.jobs[q].owner) || scope == ByPersona(db.jobs[q].persona))
                                 then db.jobs[q].(status := Superseded) else db.jobs[q])
  {}

  /** Clearing removes exactly the failed jobs that agree with the query in every column it names. */
  lemma ClearedIff(db: Db, query: JobQuery, q: nat)
    requires q in db.jobs
    ensures var after := ClearFailedTx(db, query);
            && after.jobs.Keys <= db.jobs.Keys
            && (q !in after.jobs <==>
                  && db.jobs[q].status == Failed
                  && query.persona in {"", db.jobs[q].persona} && query.session in {"", db.jobs[q].session}
                  && query.ownerScope in {"", db.jobs[q].owner.scope} && query.ownerId in {"", db.jobs[q].owner.id})
            && (q in after.jobs ==> after.jobs[q] == db.jobs[q])
  {}
}
