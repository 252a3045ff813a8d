/** What a claim takes, said without the loop: the longest admissible run of due
    jobs, starting at the oldest job its owner has waiting. */
module JobSelection {
  import opened Wrappers
  import opened JobTables

  function TokenSum(jobs: map<nat, Job>, rows: seq<nat>): nat
    requires forall q :: q in rows ==> q in jobs
  {
    if rows == [] then 0 else TokenSum(jobs, rows[..|rows| - 1]) + TokenEstimate(jobs[rows[|rows| - 1]])
  }

  /** A batch may consist of the first `k` rows. */
  ghost predicate Admissible(jobs: map<nat, Job>, rows: seq<nat>, first: Job, opts: ClaimOptions, k: nat)
    requires forall q :: q in rows ==> q in jobs
  {
    && 1 <= k <= |rows|
    && k <= MaxJobs(opts)
    && (forall i :: 0 <= i < k ==> Joins(first, jobs[rows[i]], opts))
    && (k > 1 && opts.maxInputTokens > 0 ==> TokenSum(jobs, rows[..k]) <= opts.maxInputTokens)
    && (k > 1 ==> forall i :: 0 <= i < k ==> !Solitary(jobs[rows[i]]))
  }

  /** `k` is the greatest admissible length. */
  ghost predicate IsLongest(jobs: map<nat, Job>, rows: seq<nat>, first: Job, opts: ClaimOptions, k: nat)
    requires forall q :: q in rows ==> q in jobs
  {
    && Admissible(jobs, rows, first, opts, k)
    && forall n: nat :: Admissible(jobs, rows, first, opts, n) ==> n <= k
  }

  lemma {:induction false} TokenSumMonotone(jobs: map<nat, Job>, rows: seq<nat>, k: nat, n: nat)
    requires k <= n <= |rows|
    requires forall q :: q in rows ==> q in jobs
    ensures TokenSum(jobs, rows[..k]) <= TokenSum(jobs, rows[..n])
    ensures k < n ==> TokenSum(jobs, rows[..k]) < TokenSum(jobs, rows[..n])
    decreases n
  {
    if k < n {
      assert rows[..n][..n - 1] == rows[..n - 1];
      TokenSumMonotone(jobs, rows, k, n - 1);
    }
  }

  /** A prefix of an admissible batch is admissible. */
  lemma AdmissiblePrefix(jobs: map<nat, Job>, rows: seq<nat>, first: Job, opts: ClaimOptions, k: nat, n: nat)
    requires forall q :: q in rows ==> q in jobs
    requires Admissible(jobs, rows, first, opts, n) && 1 <= k <= n
    ensures Admissible(jobs, rows, first, opts, k)
  {
    TokenSumMonotone(jobs, rows, k, n);
  }

  lemma {:induction false} ExtendIsLongest(jobs: map<nat, Job>, rows: seq<nat>, first: Job, opts: ClaimOptions, k: nat)
    requires forall q :: q in rows ==> q in jobs
    requires k < |rows| && k < MaxJobs(opts)
    requires k == 0 ==> Joins(first, jobs[rows[0]], opts)
    requires k > 0 ==> Admissible(jobs, rows, first, opts, k) && !Solitary(jobs[rows[0]])
    ensures IsLongest(jobs, rows, first, opts, Extend(jobs, rows, first, opts, k, TokenSum(jobs, rows[..k])))
    decreases |rows| - k
  {
    var used := TokenSum(jobs, rows[..k]);
    var job := jobs[rows[k]];
    var r := Extend(jobs, rows, first, opts, k, used);
    assert rows[..k + 1][..k] == rows[..k];
    assert TokenSum(jobs, rows[..k + 1]) == used + TokenEstimate(job);
    if r == k + 1 || r == k {
      StopIsLongest(jobs, rows, first, opts, k, r);
    } else {
      assert Admissible(jobs, rows, first, opts, k + 1);
      ExtendIsLongest(jobs, rows, first, opts, k + 1);
    }
  }

  /** When the loop stops at `r`, one more row is never admissible. */
  lemma StopIsLongest(jobs: map<nat, Job>, rows: seq<nat>, first: Job, opts: ClaimOptions, k: nat, r: nat)
    requires forall q :: q in rows ==> q in jobs
    requires k < |rows| && k < MaxJobs(opts)
    requires k == 0 ==> Joins(first, jobs[rows[0]], opts)
    requires k > 0 ==> Admissible(jobs, rows, first, opts, k) && !Solitary(jobs[rows[0]])
    requires r == Extend(jobs, rows, first, opts, k, TokenSum(jobs, rows[..k])) && (r == k || r == k + 1)
    ensures IsLongest(jobs, rows, first, opts, r)
  {
    assert rows[..k + 1][..k] == rows[..k];
    assert TokenSum(jobs, rows[..k + 1]) == TokenSum(jobs, rows[..k]) + TokenEstimate(jobs[rows[k]]);
    if r == k + 1 && k + 1 < |rows| {
      assert rows[..k + 2][..k + 1] == rows[..k + 1];
      assert TokenSum(jobs, rows[..k + 2]) == TokenSum(jobs, rows[..k + 1]) + TokenEstimate(jobs[rows[k + 1]]);
    }
    assert Admissible(jobs, rows, first, opts, r);
    forall n: nat | Admissible(jobs, rows, first, opts, n) ensures n <= r {
      if r < n {
        AdmissiblePrefix(jobs, rows, first, opts, r + 1, n);
        assert false;
      }
    }
  }

  ghost predicate KeysBelow(db: Db)
  {
    forall q :: q in db.jobs ==> q < db.nextSeq
  }

  /** The first hit of the scan is the least row that can be claimed. */
  lemma {:induction false} FirstClaimableIsLeast(jobs: map<nat, Job>, rows: seq<nat>, now: int, minWait: int)
    requires forall q :: q in rows ==> q in jobs
    requires forall i, j :: 0 <= i < j < |rows| ==> rows[i] < rows[j]
    ensures var r := FirstClaimable(jobs, rows, now, minWait);
            match r
            case None => forall q :: q in rows ==> !Claimable(jobs, q, now, minWait)
            case Some(first) =>
              && first in rows && Claimable(jobs, first, now, minWait)
              && forall q :: q in rows && Claimable(jobs, q, now, minWait) ==> first <= q
  {
    if rows != [] && !Claimable(jobs, rows[0], now, minWait) {
      FirstClaimableIsLeast(jobs, rows[1..], now, minWait);
      assert forall q :: q in rows ==> q == rows[0] || q in rows[1..];
    }
  }

  /** Rows below any row of a limited scan are inside the scan too. */
  lemma LimitIsDownClosed(rows: seq<nat>, n: nat, p: nat, q: nat)
    requires forall i, j :: 0 <= i < j < |rows| ==> rows[i] < rows[j]
    requires p in rows && q in Limit(rows, n) && p <= q
    ensures p in Limit(rows, n)
  {
    var i :| 0 <= i < |rows| && rows[i] == p;
    var j :| 0 <= j < |Limit(rows, n)| && Limit(rows, n)[j] == q;
    assert rows[j] == q;
    assert i <= j;
    assert Limit(rows, n)[i] == p;
  }

  lemma DueRowsFromFirst(jobs: map<nat, Job>, now: int, first: nat, hi: nat)
    requires first in jobs && Due(jobs[first], now) && first < hi
    ensures var rows := DueRows(jobs, now, first, hi); |rows| > 0 && rows[0] == first
  {
    var rows := DueRows(jobs, now, first, hi);
    assert first in rows;
    var i :| 0 <= i < |rows| && rows[i] == first;
    assert rows[0] in rows;
  }

  /** The limit on the candidate query does not matter: it admits one row more than a batch may hold. */
  lemma LimitKeepsLongest(jobs: map<nat, Job>, rows: seq<nat>, first: Job, opts: ClaimOptions, n: nat)
    requires forall q :: q in rows ==> q in jobs
    requires IsLongest(jobs, Limit(rows, MaxJobs(opts) + 1), first, opts, n)
    ensures n <= |rows| && Limit(rows, MaxJobs(opts) + 1)[..n] == rows[..n]
    ensures IsLongest(jobs, rows, first, opts, n)
  {
    var limited := Limit(rows, MaxJobs(opts) + 1);
    assert limited[..n] == rows[..n];
    assert Admissible(jobs, rows, first, opts, n);
    forall k: nat | Admissible(jobs, rows, first, opts, k) ensures k <= n {
      assert limited[..k] == rows[..k];
      assert Admissible(jobs, limited, first, opts, k);
    }
  }

  lemma PickedUnfolds(db: Db, now: int, opts: ClaimOptions)
    requires KeysBelow(db)
    ensures match FirstClaimable(db.jobs, FirstRows(db, now), now, opts.minWait)
            case None => Picked(db, now, opts) == []
            case Some(first) =>
              && Picked(db, now, opts) != [] && Picked(db, now, opts)[0] == first && first in db.jobs
              && first in FirstRows(db, now)
              && Claimable(db.jobs, first, now, opts.minWait)
              && |Picked(db, now, opts)| <= |CandidateRows(db, now, first, opts)|
              && Picked(db, now, opts) == CandidateRows(db, now, first, opts)[..|Picked(db, now, opts)|]
              && IsLongest(db.jobs, CandidateRows(db, now, first, opts), db.jobs[first], opts, |Picked(db, now, opts)|)
  {
    FirstClaimableIsLeast(db.jobs, FirstRows(db, now), now, opts.minWait);
    var f := FirstClaimable(db.jobs, FirstRows(db, now), now, opts.minWait);
    if f.Some? {
      DueRowsFromFirst(db.jobs, now, f.value, db.nextSeq);
      var limited := CandidateRows(db, now, f.value, opts);
      ExtendIsLongest(db.jobs, limited, db.jobs[f.value], opts, 0);
      assert limited[..0] == [];
    }
  }

  /** The claim takes the longest admissible run of the owner's due jobs.  Neither
      the limit on the candidate query nor the loop's early exits shorten it. */
  lemma PickedIsLongestRun(db: Db, now: int, opts: ClaimOptions)
    requires KeysBelow(db)
    requires Picked(db, now, opts) != []
    ensures var picked := Picked(db, now, opts);
            var rows := DueRows(db.jobs, now, picked[0], db.nextSeq);
            && picked[0] in db.jobs
            && |picked| <= |rows| && picked == rows[..|picked|]
            && IsLongest(db.jobs, rows, db.jobs[picked[0]], opts, |picked|)
  {
    PickedUnfolds(db, now, opts);
    var picked := Picked(db, now, opts);
    LimitKeepsLongest(db.jobs, DueRows(db.jobs, now, picked[0], db.nextSeq), db.jobs[picked[0]], opts, |picked|);
  }

  /** Nothing is claimed exactly when none of the first hundred due jobs is claimable. */
  lemma ClaimsNothingIff(db: Db, now: int, opts: ClaimOptions)
    requires KeysBelow(db)
    ensures Picked(db, now, opts) == [] <==>
            forall q :: q in FirstRows(db, now) ==> !Claimable(db.jobs, q, now, opts.minWait)
  {
    FirstClaimableIsLeast(db.jobs, FirstRows(db, now), now, opts.minWait);
    PickedUnfolds(db, now, opts);
  }

  /** A batch is one owner's and one type's jobs in seq order, and that owner has none running. */
  lemma PickedIsOneOwner(db: Db, now: int, opts: ClaimOptions)
    requires KeysBelow(db)
    requires Picked(db, now, opts) != []
    ensures var picked := Picked(db, now, opts);
            && (forall q :: q in picked ==> q in db.jobs && Due(db.jobs[q], now))
            && !OwnerRunning(db.jobs, db.jobs[picked[0]].owner)
            && (forall i, j :: 0 <= i < j < |picked| ==> picked[i] < picked[j])
            && (forall q :: q in picked ==> db.jobs[q].owner == db.jobs[picked[0]].owner)
            && (forall q :: q in picked ==> db.jobs[q].jobType == db.jobs[picked[0]].jobType)
            && (|picked| > 1 ==> forall q :: q in picked ==> !Solitary(db.jobs[q]))
  {
    PickedUnfolds(db, now, opts);
    PickedIsLongestRun(db, now, opts);
  }

  /** A batch starts at its owner's oldest waiting job. */
  lemma PickedStartsOldest(db: Db, now: int, opts: ClaimOptions, q: nat)
    requires KeysBelow(db)
    requires Picked(db, now, opts) != []
    requires q in db.jobs && Due(db.jobs[q], now) && Waited(db.jobs[q], now, opts.minWait)
    requires db.jobs[q].owner == db.jobs[Picked(db, now, opts)[0]].owner
    ensures Picked(db, now, opts)[0] <= q
  {
    PickedUnfolds(db, now, opts);
    var first := Picked(db, now, opts)[0];
    if q < first {
      LimitIsDownClosed(DueRows(db.jobs, now, 0, db.nextSeq), FIRST_JOB_SCAN_LIMIT, q, first);
      FirstClaimableIsLeast(db.jobs, FirstRows(db, now), now, opts.minWait);
      assert Claimable(db.jobs, q, now, opts.minWait);
    }
  }

  /** Every due job between the first and the last job of a batch is in the batch. */
  lemma PickedIsContiguous(db: Db, now: int, opts: ClaimOptions, q: nat)
    requires KeysBelow(db)
    requires Picked(db, now, opts) != []
    requires q in db.jobs && Due(db.jobs[q], now)
    requires var picked := Picked(db, now, opts); picked[0] <= q <= picked[|picked| - 1]
    ensures q in Picked(db, now, opts)
  {
    PickedIsLongestRun(db, now, opts);
    var picked := Picked(db, now, opts);
    var rows := DueRows(db.jobs, now, picked[0], db.nextSeq);
    assert q in rows;
    var i :| 0 <= i < |rows| && rows[i] == q;
    assert rows[|picked| - 1] == picked[|picked| - 1];
    assert i < |picked|;
    assert picked[i] == q;
  }

  /** Later rows were created no earlier, and every creation time is set. */
  ghost predicate CreatedInOrder(jobs: map<nat, Job>)
  {
    && (forall q :: q in jobs ==> jobs[q].createdAt > ZERO_TIME)
    && (forall p, q :: p in jobs && q in jobs && p < q ==> jobs[p].createdAt <= jobs[q].createdAt)
  }

  /** No job is claimed past a due barrier of its owner, and a barrier is claimed alone. */
  lemma NoClaimPassesBarrier(db: Db, now: int, opts: ClaimOptions, bar: nat, q: nat)
    requires KeysBelow(db) && CreatedInOrder(db.jobs)
    requires q in Picked(db, now, opts)
    requires bar in db.jobs && Due(db.jobs[bar], now) && db.jobs[bar].jobType.Barrier?
    requires db.jobs[bar].owner == db.jobs[q].owner
    ensures q <= bar
    ensures q == bar ==> Picked(db, now, opts) == [bar]
  {
    hide Picked, FirstClaimable, IsLongest;
    var picked := Picked(db, now, opts);
    PickedIsOneOwner(db, now, opts);
    PickedUnfolds(db, now, opts);
    if bar <= q {
      assert Waited(db.jobs[picked[0]], now, opts.minWait);
      if bar < picked[0] {
        PickedStartsOldest(db, now, opts, bar);
      }
      PickedIsContiguous(db, now, opts, bar);
      assert Solitary(db.jobs[bar]);
      assert |picked| == 1;
    }
  }
}
