/** What the two queue tables keep under every transaction, given that a batch
    is only finished by the worker that holds it. */
module TableInvariant {
  import opened Wrappers
  import opened JobTables
  import opened JobSelection

  predicate Agree(job: JobStatus, batch: BatchStatus)
  {
    match job
    case Running => batch.BatchRunning?
    case Done => batch.BatchDone?
    case Failed => batch.BatchFailed?
    case Pending => false
    case Superseded => false
  }

  /** A job outside a batch is pending or superseded; a job in a batch has the
      batch's owner and its status says the same as the batch's. */
  ghost predicate RowOk(db: Db, q: nat)
    requires q in db.jobs
  {
    var job := db.jobs[q];
    match job.batch
    case None => job.status.Pending? || job.status.Superseded?
    case Some(b) =>
      && b in db.batches
      && q in db.batches[b].jobIds
      && Agree(job.status, db.batches[b].status)
      && job.owner == db.batches[b].owner
      && job.claimedUntil.Some?
  }

  /** A running batch has all its jobs, in order, with one common claim. */
  ghost predicate BatchOk(db: Db, b: nat)
    requires b in db.batches
  {
    var batch := db.batches[b];
    && |batch.jobIds| == batch.jobCount > 0
    && (forall i, j :: 0 <= i < j < |batch.jobIds| ==> batch.jobIds[i] < batch.jobIds[j])
    && (forall q :: q in batch.jobIds ==> q < db.nextSeq)
    && (batch.status.BatchRunning? ==>
          forall q :: q in batch.jobIds ==>
            && q in db.jobs && db.jobs[q].batch == Some(b)
            && batch.jobIds[0] in db.jobs
            && db.jobs[q].claimedUntil == db.jobs[batch.jobIds[0]].claimedUntil)
  }

  /** No owner has two running batches. */
  ghost predicate Exclusive(db: Db)
  {
    forall b, c | b in db.batches && c in db.batches
                  && db.batches[b].status.BatchRunning? && db.batches[c].status.BatchRunning?
                  && db.batches[b].owner == db.batches[c].owner
      :: b == c
  }

  /** The batch of a committed event is done and still has all its jobs. */
  ghost predicate CommittedOk(db: Db, b: nat)
  {
    && b in db.batches
    && db.batches[b].status.BatchDone?
    && forall q :: q in db.batches[b].jobIds ==> q in db.jobs && db.jobs[q].batch == Some(b)
  }

  ghost predicate CommitsOk(db: Db)
  {
    && |db.events| == |db.moods|
    && (forall i :: 0 <= i < |db.events| && db.events[i].batch.Some? ==> CommittedOk(db, db.events[i].batch.value))
    && (forall i, j :: 0 <= i < j < |db.events| && db.events[i].batch.Some? ==> db.events[i].batch != db.events[j].batch)
  }

  ghost predicate TablesOk(db: Db)
  {
    && KeysBelow(db)
    && (forall q :: q in db.jobs ==> RowOk(db, q))
    && (forall b :: b in db.batches ==> BatchOk(db, b))
    && Exclusive(db)
    && CommitsOk(db)
  }

  ghost predicate NoRefs(db: Db, b: nat)
  {
    forall q :: q in db.jobs ==> db.jobs[q].batch != Some(b)
  }

  /** What a transaction may do to a batch it is not finishing: let its claim expire, and nothing else. */
  ghost predicate Framed(db: Db, db': Db, b: nat)
    requires b in db.batches
  {
    && b in db'.batches
    && db'.batches[b] == db.batches[b].(status := db'.batches[b].status, expired := db'.batches[b].expired)
    && (db'.batches[b].status == db.batches[b].status
        || (db.batches[b].status.BatchRunning? && db'.batches[b].status.BatchFailed? && NoRefs(db', b)))
    && (NoRefs(db, b) ==> NoRefs(db', b))
    && (db'.batches[b].status.BatchRunning? ==> SameRows(db, db', b))
  }

  ghost predicate SameRows(db: Db, db': Db, b: nat)
  {
    && (forall q :: q in db.jobs && db.jobs[q].batch == Some(b) ==> q in db'.jobs && db'.jobs[q] == db.jobs[q])
    && (forall q :: q in db'.jobs && db'.jobs[q].batch == Some(b) ==> q in db.jobs && db'.jobs[q] == db.jobs[q])
  }

  /** Every batch but `b` is framed. */
  ghost predicate FramedBut(db: Db, db': Db, b: Option<nat>)
  {
    forall c :: c in db.batches && b != Some(c) ==> Framed(db, db', c)
  }

  // ---------------------------------------------------------------- release

  /** An expired claim covers its whole batch. */
  lemma ExpiredTogether(db: Db, now: int, b: nat)
    requires TablesOk(db) && b in ExpiredBatches(db.jobs, now)
    ensures b in db.batches && db.batches[b].status.BatchRunning?
    ensures forall q :: q in db.jobs && db.jobs[q].batch == Some(b) ==> Expired(db.jobs[q], now)
  {
    var p :| p in db.jobs && Expired(db.jobs[p], now) && db.jobs[p].batch == Some(b);
    assert RowOk(db, p) && BatchOk(db, b);
    forall q | q in db.jobs && db.jobs[q].batch == Some(b) ensures Expired(db.jobs[q], now) {
      assert RowOk(db, q);
    }
  }

  lemma ReleaseRows(db: Db, now: int)
    requires TablesOk(db)
    ensures forall q :: q in db.jobs ==> RowOk(ReleaseTx(db, now), q)
  {
    var ids := ExpiredBatches(db.jobs, now);
    forall q | q in db.jobs ensures RowOk(ReleaseTx(db, now), q) {
      assert RowOk(db, q);
      if db.jobs[q].batch.Some? && db.jobs[q].batch.value in ids {
        ExpiredTogether(db, now, db.jobs[q].batch.value);
      }
    }
  }

  lemma ReleaseBatch(db: Db, now: int, b: nat)
    requires TablesOk(db) && b in db.batches
    ensures BatchOk(ReleaseTx(db, now), b) && Framed(db, ReleaseTx(db, now), b)
  {
    assert BatchOk(db, b);
    if b in ExpiredBatches(db.jobs, now) {
      ExpiredTogether(db, now, b);
    } else {
      assert forall q :: q in db.jobs && db.jobs[q].batch == Some(b) ==> !Expired(db.jobs[q], now);
    }
  }

  lemma ReleaseKeeps(db: Db, now: int)
    requires TablesOk(db)
    ensures TablesOk(ReleaseTx(db, now))
    ensures FramedBut(db, ReleaseTx(db, now), None)
  {
    hide RowOk, BatchOk, Framed, CommittedOk;
    var db' := ReleaseTx(db, now);
    ReleaseRows(db, now);
    forall b | b in db.batches ensures BatchOk(db', b) && Framed(db, db', b) {
      ReleaseBatch(db, now, b);
    }
    forall b | CommittedOk(db, b) ensures CommittedOk(db', b) {
      ReleaseCommitted(db, now, b);
    }
  }

  lemma ReleaseCommitted(db: Db, now: int, b: nat)
    requires TablesOk(db) && CommittedOk(db, b)
    ensures CommittedOk(ReleaseTx(db, now), b)
  {
    ReleaseBatch(db, now, b);
    forall q | q in db.batches[b].jobIds ensures ReleaseTx(db, now).jobs[q] == db.jobs[q] {
      assert RowOk(db, q);
    }
  }

  // ---------------------------------------------------------------- claim

  ghost predicate Selected(db: Db, picked: seq<nat>)
  {
    && picked != []
    && (forall q :: q in picked ==> q in db.jobs && db.jobs[q].status.Pending?)
    && picked[0] in db.jobs
    && (forall i, j :: 0 <= i < j < |picked| ==> picked[i] < picked[j])
    && (forall q :: q in picked ==> db.jobs[q].owner == db.jobs[picked[0]].owner)
    && !OwnerRunning(db.jobs, db.jobs[picked[0]].owner)
  }

  lemma PickedIsSelected(db: Db, now: int, opts: ClaimOptions)
    requires KeysBelow(db)
    ensures Picked(db, now, opts) == [] || Selected(db, Picked(db, now, opts))
  {
    if Picked(db, now, opts) != [] {
      PickedIsOneOwner(db, now, opts);
      assert Picked(db, now, opts)[0] in Picked(db, now, opts);
    }
  }

  /** A claim either only releases, or releases and inserts a batch of selected jobs. */
  ghost predicate ClaimCase(released: Db, db': Db, claimed: Option<nat>, b: nat)
  {
    match claimed
    case None => db' == released
    case Some(c) => c == b && exists picked, until :: Selected(released, picked) && db' == InsertClaim(released, picked, b, until)
  }

  lemma ClaimCases(db: Db, now: int, opts: ClaimOptions, b: nat)
    requires KeysBelow(db)
    ensures ClaimCase(ReleaseTx(db, now), ClaimTx(db, now, opts, b).0, ClaimTx(db, now, opts, b).1, b)
  {
    var released := ReleaseTx(db, now);
    PickedIsSelected(released, now, opts);
    var picked := Picked(released, now, opts);
    if picked != [] {
      assert Selected(released, picked) && ClaimTx(db, now, opts, b).0 == InsertClaim(released, picked, b, now + ClaimTTL(opts));
    }
  }

  lemma InsertShape(db: Db, picked: seq<nat>, b: nat, until: int)
    requires Selected(db, picked)
    ensures var db' := InsertClaim(db, picked, b, until);
            && db'.nextSeq == db.nextSeq && db'.batches.Keys == db.batches.Keys + {b}
            && db'.batches[b].status.BatchRunning?
  {}

  lemma ClaimKeeps(db: Db, released: Db, db': Db, claimed: Option<nat>, b: nat)
    requires TablesOk(released) && FramedBut(db, released, None) && b !in released.batches
    requires ClaimCase(released, db', claimed, b)
    ensures TablesOk(db') && FramedBut(db, db', None)
    ensures db'.nextSeq == released.nextSeq
    ensures db'.batches.Keys == released.batches.Keys + (if claimed.Some? then {b} else {})
    ensures claimed.Some? ==> claimed == Some(b) && db'.batches[b].status.BatchRunning?
  {
    hide InsertClaim;
    if claimed.Some? {
      var picked, until :| Selected(released, picked) && db' == InsertClaim(released, picked, b, until);
      InsertKeeps(released, picked, b, until);
      InsertShape(released, picked, b, until);
      FramedTrans(db, released, db');
    }
  }

  lemma FramedTrans(a: Db, b: Db, c: Db)
    requires FramedBut(a, b, None) && FramedBut(b, c, None)
    ensures FramedBut(a, c, None)
  {
    forall x | x in a.batches ensures Framed(a, c, x) {
      assert Framed(a, b, x) && Framed(b, c, x);
    }
  }

  /** Claiming touches no row and no batch that was already running. */
  lemma InsertFrame(db: Db, picked: seq<nat>, b: nat, until: int, c: nat)
    requires TablesOk(db) && b !in db.batches && Selected(db, picked) && c in db.batches
    ensures BatchOk(InsertClaim(db, picked, b, until), c)
    ensures Framed(db, InsertClaim(db, picked, b, until), c)
    ensures db.batches[c].status.BatchRunning? ==> db.batches[c].owner != db.jobs[picked[0]].owner
  {
    assert BatchOk(db, c);
    forall q | q in db.jobs && db.jobs[q].batch == Some(c) ensures q !in picked { assert RowOk(db, q); }
    if db.batches[c].status.BatchRunning? {
      var q := db.batches[c].jobIds[0];
      assert q in db.batches[c].jobIds;
      assert RowOk(db, q);
    }
  }

  lemma InsertKeeps(db: Db, picked: seq<nat>, b: nat, until: int)
    requires TablesOk(db) && b !in db.batches && Selected(db, picked)
    ensures TablesOk(InsertClaim(db, picked, b, until))
    ensures FramedBut(db, InsertClaim(db, picked, b, until), None)
  {
    var db' := InsertClaim(db, picked, b, until);
    forall q | q in db'.jobs ensures RowOk(db', q) {
      assert RowOk(db, q);
    }
    forall c | c in db.batches ensures BatchOk(db', c) && Framed(db, db', c) {
      InsertFrame(db, picked, b, until, c);
    }
    assert BatchOk(db', b);
    assert Exclusive(db') by {
      forall c | c in db.batches && db.batches[c].status.BatchRunning?
        ensures db.batches[c].owner != db.jobs[picked[0]].owner
      {
        InsertFrame(db, picked, b, until, c);
      }
    }
    forall c | CommittedOk(db, c) ensures CommittedOk(db', c) {
      forall q | q in db.batches[c].jobIds ensures db'.jobs[q] == db.jobs[q] { assert RowOk(db, q); }
    }
  }

  // ---------------------------------------------------------------- finishing

  /** The state in which a worker may finish a batch: it runs, or its claim has been released. */
  ghost predicate Finishable(db: Db, b: nat)
  {
    && b in db.batches
    && !db.batches[b].status.BatchDone?
    && (db.batches[b].status.BatchFailed? ==> NoRefs(db, b))
  }

  /** Finishing rewrites the rows of one batch and leaves every other row alone. */
  ghost predicate FinishedRow(job: Job, job': Job, b: nat, status: BatchStatus)
  {
    if job.batch != Some(b) then job' == job
    else
      && job'.owner == job.owner
      && (|| (job'.batch == Some(b) && job'.claimedUntil == job.claimedUntil && Agree(job'.status, status))
          || (job'.batch.None? && job'.status.Pending?))
  }

  lemma FinishLeavesRows(db: Db, db': Db, b: nat, status: BatchStatus, c: nat)
    requires c != b && db'.jobs.Keys == db.jobs.Keys
    requires forall q :: q in db.jobs ==> FinishedRow(db.jobs[q], db'.jobs[q], b, status)
    ensures SameRows(db, db', c)
  {
    forall q | q in db.jobs ensures q in db'.jobs && FinishedRow(db.jobs[q], db'.jobs[q], b, status) {}
  }

  /** A batch whose row and jobs are as before is as well off as before. */
  lemma SameRowsFrame(db: Db, db': Db, c: nat)
    requires c in db.batches && c in db'.batches && db'.batches[c] == db.batches[c]
    requires SameRows(db, db', c) && db'.nextSeq >= db.nextSeq && BatchOk(db, c)
    ensures BatchOk(db', c) && Framed(db, db', c)
  {}

  lemma FinishFrame(db: Db, db': Db, b: nat, status: BatchStatus, c: nat)
    requires TablesOk(db) && Finishable(db, b) && c in db.batches
    requires !status.BatchRunning? && db'.batches == db.batches[b := db.batches[b].(status := status)]
    requires db'.jobs.Keys == db.jobs.Keys
    requires forall q :: q in db.jobs ==> FinishedRow(db.jobs[q], db'.jobs[q], b, status)
    requires db'.nextSeq == db.nextSeq
    ensures BatchOk(db', c) && (c != b ==> Framed(db, db', c))
  {
    assert BatchOk(db, c);
    if c != b {
      FinishLeavesRows(db, db', b, status, c);
      SameRowsFrame(db, db', c);
    }
  }

  lemma FinishKeeps(db: Db, db': Db, b: nat, status: BatchStatus)
    requires TablesOk(db) && Finishable(db, b)
    requires !status.BatchRunning? && db'.batches == db.batches[b := db.batches[b].(status := status)]
    requires db'.jobs.Keys == db.jobs.Keys
    requires forall q :: q in db.jobs ==> FinishedRow(db.jobs[q], db'.jobs[q], b, status)
    requires db'.moods == db.moods && db'.events == db.events && db'.nextSeq == db.nextSeq
    ensures TablesOk(db') && FramedBut(db, db', Some(b))
  {
    forall q | q in db'.jobs ensures RowOk(db', q) {
      assert RowOk(db, q) && FinishedRow(db.jobs[q], db'.jobs[q], b, status);
    }
    forall c | c in db.batches ensures BatchOk(db', c) && (c != b ==> Framed(db, db', c)) {
      FinishFrame(db, db', b, status, c);
    }
    forall c | CommittedOk(db, c) ensures CommittedOk(db', c) {
      assert c != b;
      forall q | q in db.batches[c].jobIds ensures db'.jobs[q] == db.jobs[q] {
        assert RowOk(db, q) && FinishedRow(db.jobs[q], db'.jobs[q], b, status);
      }
    }
  }

  lemma MarkDoneKeeps(db: Db, b: nat, clearRaw: bool)
    requires TablesOk(db) && Finishable(db, b)
    ensures TablesOk(MarkDoneTx(db, b, clearRaw)) && FramedBut(db, MarkDoneTx(db, b, clearRaw), Some(b))
  {
    FinishKeeps(db, MarkDoneTx(db, b, clearRaw), b, BatchDone);
  }

  lemma MarkFailedKeeps(db: Db, b: nat, retry: bool, retryAt: int, clearRaw: bool)
    requires TablesOk(db) && Finishable(db, b)
    ensures TablesOk(MarkFailedTx(db, b, retry, retryAt, clearRaw))
    ensures FramedBut(db, MarkFailedTx(db, b, retry, retryAt, clearRaw), Some(b))
  {
    FinishKeeps(db, MarkFailedTx(db, b, retry, retryAt, clearRaw), b, BatchFailed);
  }

  /** The count that the commit transaction checks is always right for a running batch. */
  lemma RunningCountIsExact(db: Db, b: nat)
    requires TablesOk(db) && b in db.batches
    ensures CommitAllowed(db, b) <==> db.batches[b].status.BatchRunning?
  {
    var ids := db.batches[b].jobIds;
    assert BatchOk(db, b);
    if db.batches[b].status.BatchRunning? {
      forall q ensures q in RunningOf(db.jobs, b) <==> q in ids {
        if q in db.jobs { assert RowOk(db, q); }
      }
      DistinctCount(ids, RunningOf(db.jobs, b));
    }
  }

  lemma {:induction false} DistinctCount(ids: seq<nat>, s: set<nat>)
    requires forall i, j :: 0 <= i < j < |ids| ==> ids[i] < ids[j]
    requires forall q :: q in s <==> q in ids
    ensures |s| == |ids|
    decreases |ids|
  {
    if ids == [] {
      assert s == {};
    } else {
      var last := ids[|ids| - 1];
      assert last in ids;
      assert forall q :: q in ids <==> q in ids[..|ids| - 1] || q == last;
      DistinctCount(ids[..|ids| - 1], s - {last});
    }
  }

  /** Appending a mood row and its event changes no row the queue invariant speaks of. */
  lemma AppendKeeps(db: Db, row: MoodRow, event: MoodEvent)
    requires TablesOk(db)
    requires event.batch.Some? ==> CommittedOk(db, event.batch.value)
    requires event.batch.Some? ==> forall i :: 0 <= i < |db.events| ==> db.events[i].batch != event.batch
    ensures TablesOk(db.(moods := db.moods + [row], events := db.events + [event]))
  {
    var db' := db.(moods := db.moods + [row], events := db.events + [event]);
    assert forall q :: q in db.jobs ==> RowOk(db, q) && RowOk(db', q);
    assert forall b :: b in db.batches ==> BatchOk(db, b) && BatchOk(db', b);
    assert forall b :: CommittedOk(db, b) ==> CommittedOk(db', b);
  }

  lemma CommitKeeps(db: Db, b: nat, row: MoodRow, event: MoodEvent, clearRaw: bool)
    requires TablesOk(db) && Finishable(db, b) && event.batch == Some(b) && CommitAllowed(db, b)
    ensures TablesOk(CommitTx(db, b, row, event, clearRaw).value)
    ensures FramedBut(db, CommitTx(db, b, row, event, clearRaw).value, Some(b))
  {
    var done := MarkDoneTx(db, b, clearRaw);
    MarkDoneKeeps(db, b, clearRaw);
    assert CommittedOk(done, b) by {
      assert BatchOk(db, b);
    }
    AppendKeeps(done, row, event);
    var db' := CommitTx(db, b, row, event, clearRaw).value;
    assert db' == done.(moods := done.moods + [row], events := done.events + [event]);
    forall c | c in db.batches && c != b ensures Framed(db, db', c) {
      assert Framed(db, done, c);
    }
  }

  // ---------------------------------------------------------------- the other transactions

  /** A transaction that only adds, rewrites or drops rows outside batches and failed rows. */
  ghost predicate OutsideBatches(db: Db, db': Db)
  {
    && db' == db.(jobs := db'.jobs, nextSeq := db'.nextSeq)
    && db.nextSeq <= db'.nextSeq
    && (forall q :: q in db'.jobs ==>
          || (q in db.jobs && db'.jobs[q] == db.jobs[q])
          || (q < db'.nextSeq && db'.jobs[q].batch.None? && (q in db.jobs ==> db.jobs[q].batch.None?)
              && (db'.jobs[q].status.Pending? || db'.jobs[q].status.Superseded?)))
    && (forall q :: q in db.jobs ==> q in db'.jobs || db.jobs[q].status.Failed?)
  }

  lemma OutsideKeeps(db: Db, db': Db)
    requires TablesOk(db) && OutsideBatches(db, db')
    ensures TablesOk(db') && FramedBut(db, db', None)
  {
    forall q | q in db'.jobs ensures RowOk(db', q) {
      if q in db.jobs { assert RowOk(db, q); }
    }
    forall b | b in db.batches ensures BatchOk(db', b) && Framed(db, db', b) {
      assert BatchOk(db, b);
      forall q | q in db.jobs && db.jobs[q].batch == Some(b) && !db.batches[b].status.BatchFailed? ensures q in db'.jobs {
        assert RowOk(db, q);
      }
    }
    forall b | CommittedOk(db, b) ensures CommittedOk(db', b) {
      forall q | q in db.batches[b].jobIds ensures q in db'.jobs { assert RowOk(db, q); }
    }
  }

  lemma EnqueueKeeps(db: Db, req: NewJob, now: int)
    requires TablesOk(db)
    ensures TablesOk(EnqueueTx(db, req, now)) && FramedBut(db, EnqueueTx(db, req, now), None)
  {
    OutsideKeeps(db, EnqueueTx(db, req, now));
  }

  lemma SupersedeKeeps(db: Db, scope: SupersedeScope)
    requires TablesOk(db)
    ensures TablesOk(SupersedeTx(db, scope)) && FramedBut(db, SupersedeTx(db, scope), None)
  {
    assert forall q :: q in db.jobs ==> RowOk(db, q);
    OutsideKeeps(db, SupersedeTx(db, scope));
  }

  lemma ClearFailedKeeps(db: Db, query: JobQuery)
    requires TablesOk(db)
    ensures TablesOk(ClearFailedTx(db, query)) && FramedBut(db, ClearFailedTx(db, query), None)
  {
    OutsideKeeps(db, ClearFailedTx(db, query));
  }

  lemma StateEventKeeps(db: Db, row: MoodRow, event: MoodEvent)
    requires TablesOk(db) && event.batch.None?
    ensures TablesOk(CommitStateEventTx(db, row, event)) && FramedBut(db, CommitStateEventTx(db, row, event), None)
  {
    AppendKeeps(db, row, event);
  }
}
