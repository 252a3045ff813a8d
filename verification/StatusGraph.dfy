/** Which status a row can have next.  The store's own statements do not guard
    the old status; the worker protocol does. */
module StatusGraph {
  import opened Wrappers
  import opened JobTables
  import opened JobSelection
  import opened TableInvariant
  import opened WorkerProtocol
  import opened WorkerInvariant

  /** Within one transaction a claim may release a running job and take it again. */
  predicate JobEdge(a: JobStatus, b: JobStatus)
  {
    || a == b
    || (a.Pending? && (b.Running? || b.Superseded?))
    || (a.Running? && (b.Pending? || b.Done? || b.Failed?))
  }

  /** Marking a barrier done has no guard, so its batch may be released first and done after. */
  predicate BatchEdge(a: BatchStatus, b: BatchStatus)
  {
    || a == b
    || a.BatchRunning?
    || (a.BatchFailed? && b.BatchDone?)
  }

  ghost predicate Edges(db: Db, db': Db)
  {
    && db.nextSeq <= db'.nextSeq
    && (forall q :: q in db.jobs && q in db'.jobs ==> JobEdge(db.jobs[q].status, db'.jobs[q].status))
    && (forall q :: q in db.jobs && q !in db'.jobs ==> db.jobs[q].status.Failed?)
    && (forall q :: q in db'.jobs && q !in db.jobs ==> q >= db.nextSeq)
    && (forall b :: b in db.batches ==>
          && b in db'.batches
          && BatchEdge(db.batches[b].status, db'.batches[b].status)
          && db'.batches[b].owner == db.batches[b].owner && db'.batches[b].jobIds == db.batches[b].jobIds)
  }

  /** The rows of a batch that its holder may finish are all running. */
  lemma FinishableRows(db: Db, b: nat)
    requires TablesOk(db) && Finishable(db, b)
    ensures forall q :: q in db.jobs && db.jobs[q].batch == Some(b) ==> db.jobs[q].status.Running?
  {
    forall q | q in db.jobs && db.jobs[q].batch == Some(b) ensures db.jobs[q].status.Running? {
      assert RowOk(db, q);
    }
  }

  lemma MarkDoneEdges(db: Db, b: nat, clearRaw: bool)
    requires TablesOk(db) && Finishable(db, b)
    ensures Edges(db, MarkDoneTx(db, b, clearRaw))
  {
    FinishableRows(db, b);
  }

  lemma FailedStatus(retry: bool, retryAt: int, clearRaw: bool)
    ensures forall job :: FailJob(job, retry, retryAt, clearRaw).status in {JobStatus.Pending, JobStatus.Failed}
  {}

  lemma MarkFailedEdges(db: Db, b: nat, retry: bool, retryAt: int, clearRaw: bool)
    requires TablesOk(db) && Finishable(db, b)
    ensures Edges(db, MarkFailedTx(db, b, retry, retryAt, clearRaw))
  {
    FinishableRows(db, b);
    hide TablesOk, Finishable, FailJob;
    FailedStatus(retry, retryAt, clearRaw);
  }

  /** What releasing does to the status columns. */
  ghost predicate OnlyReleases(db: Db, released: Db)
  {
    && released.nextSeq == db.nextSeq && released.jobs.Keys == db.jobs.Keys && released.batches.Keys == db.batches.Keys
    && (forall q :: q in db.jobs ==>
          || released.jobs[q].status == db.jobs[q].status
          || (db.jobs[q].status.Running? && released.jobs[q].status.Pending?))
    && (forall b :: b in db.batches ==>
          && (released.batches[b].status == db.batches[b].status || db.batches[b].status.BatchRunning?)
          && released.batches[b].owner == db.batches[b].owner && released.batches[b].jobIds == db.batches[b].jobIds)
  }

  lemma ReleaseReleases(db: Db, now: int)
    ensures OnlyReleases(db, ReleaseTx(db, now))
  {
  }

  /** What inserting a claim does: start pending jobs, add one batch. */
  ghost predicate OnlyStarts(released: Db, db': Db)
  {
    && db'.nextSeq == released.nextSeq && db'.jobs.Keys == released.jobs.Keys
    && (forall q :: q in released.jobs ==>
          || db'.jobs[q].status == released.jobs[q].status
          || (released.jobs[q].status.Pending? && db'.jobs[q].status.Running?))
    && (forall c :: c in released.batches ==> c in db'.batches && db'.batches[c] == released.batches[c])
  }

  lemma InsertStarts(released: Db, picked: seq<nat>, b: nat, until: int)
    requires Selected(released, picked) && b !in released.batches
    ensures OnlyStarts(released, InsertClaim(released, picked, b, until))
  {
  }

  lemma ClaimStarts(released: Db, db': Db, claimed: Option<nat>, b: nat)
    requires b !in released.batches && ClaimCase(released, db', claimed, b)
    ensures OnlyStarts(released, db')
  {
    if claimed.Some? {
      var picked, until :| Selected(released, picked) && db' == InsertClaim(released, picked, b, until);
      InsertStarts(released, picked, b, until);
    }
  }

  lemma ClaimEdges(db: Db, released: Db, db': Db)
    requires OnlyReleases(db, released) && OnlyStarts(released, db')
    requires forall q :: q in db.jobs ==> q < db.nextSeq
    ensures Edges(db, db') && db'.jobs.Keys == db.jobs.Keys
  {
  }

  lemma ClaimStepEdges(s: System, w: nat, now: int, opts: ClaimOptions)
    requires Inv(s)
    ensures Edges(s.db, ApplyClaim(s, w, now, opts).db)
    ensures ApplyClaim(s, w, now, opts).db.jobs.Keys == s.db.jobs.Keys
  {
    ReleaseReleases(s.db, now);
    ClaimCases(s.db, now, opts, s.nextId);
    ClaimStarts(ReleaseTx(s.db, now), ClaimTx(s.db, now, opts, s.nextId).0, ClaimTx(s.db, now, opts, s.nextId).1, s.nextId);
    ClaimEdges(s.db, ReleaseTx(s.db, now), ClaimTx(s.db, now, opts, s.nextId).0);
  }

  lemma FailStepEdges(s: System, w: nat, now: int, cfg: RetryPolicy.RetryConfig, clearRaw: bool)
    requires Inv(s) && PcOf(s, w).Failing?
    ensures Edges(s.db, ApplyMarkFailed(s, w, now, cfg, clearRaw).db)
  {
    assert Holds(s.db, s.workers[w]);
    var retry, retryAt := MarkFailedUnfolds(s, w, now, cfg, clearRaw);
    MarkFailedEdges(s.db, PcOf(s, w).b, retry, retryAt, clearRaw);
  }

  lemma CommitStepEdges(s: System, w: nat, clearRaw: bool)
    requires Inv(s) && PcOf(s, w).Ready?
    ensures Edges(s.db, ApplyCommit(s, w, clearRaw).db)
  {
    assert Holds(s.db, s.workers[w]);
    MarkDoneEdges(s.db, PcOf(s, w).b, clearRaw);
    var done := MarkDoneTx(s.db, PcOf(s, w).b, clearRaw);
    assert Edges(s.db, s.db);
    assert CommitAllowed(s.db, PcOf(s, w).b) ==>
             ApplyCommit(s, w, clearRaw).db.jobs == done.jobs && ApplyCommit(s, w, clearRaw).db.batches == done.batches;
  }

  lemma OutsideEdges(db: Db, scope: SupersedeScope, query: JobQuery, req: NewJob, now: int)
    requires KeysBelow(db)
    ensures Edges(db, SupersedeTx(db, scope)) && Edges(db, ClearFailedTx(db, query)) && Edges(db, EnqueueTx(db, req, now))
  {
  }

  const NO_QUERY := JobQuery("", "", "", "")
  const NO_JOB := NewJob("", "", MoodOwner("", ""), Barrier, false, 0, 0, 0)

  /** The steps that end a batch. */
  lemma EndingEdges(s: System, a: Action)
    requires Inv(s) && Enabled(s, a) && (a.FinishBarrier? || a.Commit? || a.MarkFailed?)
    ensures Edges(s.db, Apply(s, a).db)
    ensures s.db.jobs.Keys <= Apply(s, a).db.jobs.Keys
  {
    match a {
      case FinishBarrier(w, clearRaw) =>
        assert Holds(s.db, s.workers[w]);
        MarkDoneEdges(s.db, PcOf(s, w).b, clearRaw);
      case Commit(w, clearRaw) => CommitStepEdges(s, w, clearRaw);
      case MarkFailed(w, now, cfg, clearRaw) =>
        FailStepEdges(s, w, now, cfg, clearRaw);
        var retry, retryAt := MarkFailedUnfolds(s, w, now, cfg, clearRaw);
    }
  }

  /** The steps that touch no queue table. */
  lemma LocalEdges(s: System, a: Action)
    requires Enabled(s, a)
    requires a.List? || a.ReadMood? || a.Evaluate? || a.Check? || a.Stamp? || a.GiveUp? || a.Crash?
             || a.WriterRead? || a.WriterStamp? || a.WriterCommit? || a.WriterAbort?
    ensures Edges(s.db, Apply(s, a).db) && Apply(s, a).db.jobs == s.db.jobs
  {
    assert Apply(s, a).db.jobs == s.db.jobs && Apply(s, a).db.batches == s.db.batches;
  }

  /** Every step moves every job and batch along the graph, and only ClearFailed removes a job. */
  lemma StepEdges(s: System, a: Action)
    requires Inv(s) && Enabled(s, a)
    ensures Edges(s.db, Apply(s, a).db)
    ensures !a.ClearFailed? ==> s.db.jobs.Keys <= Apply(s, a).db.jobs.Keys
  {
    match a {
      case Claim(w, now, opts) => ClaimStepEdges(s, w, now, opts);
      case FinishBarrier(_, _) => EndingEdges(s, a);
      case Commit(_, _) => EndingEdges(s, a);
      case MarkFailed(_, _, _, _) => EndingEdges(s, a);
      case Enqueue(req, now) => OutsideEdges(s.db, All, NO_QUERY, req, now);
      case Supersede(scope) => OutsideEdges(s.db, scope, NO_QUERY, NO_JOB, 0);
      case ClearFailed(query) => OutsideEdges(s.db, All, query, NO_JOB, 0);
      case WriterSupersede(m) => OutsideEdges(s.db, ByOwner(WriterOf(s, m).owner), NO_QUERY, NO_JOB, 0);
      case _ => LocalEdges(s, a);
    }
  }

  /** A done or superseded job keeps its row and its status for ever; a failed one
      stays failed until it is cleared; a cleared key never comes back. */
  lemma {:induction false} SettledForever(s: System, acts: seq<Action>, q: nat)
    requires Inv(s) && IsRun(s, acts)
    ensures var jobs := Exec(s, acts).db.jobs;
            && (q in s.db.jobs && (s.db.jobs[q].status.Done? || s.db.jobs[q].status.Superseded?) ==>
                  q in jobs && jobs[q].status == s.db.jobs[q].status)
            && (q in s.db.jobs && s.db.jobs[q].status.Failed? && q in jobs ==> jobs[q].status.Failed?)
            && (q !in s.db.jobs && q < s.db.nextSeq ==> q !in jobs)
    decreases |acts|
  {
    if acts != [] {
      StepEdges(s, acts[0]);
      StepKeepsInv(s, acts[0]);
      SettledForever(Apply(s, acts[0]), acts[1..], q);
    }
  }

  /** A batch that has left the running status never runs again, in any continuation. */
  lemma {:induction false} NeverRunsAgain(s: System, acts: seq<Action>, b: nat)
    requires Inv(s) && IsRun(s, acts)
    requires b in s.db.batches && !s.db.batches[b].status.BatchRunning?
    ensures b in Exec(s, acts).db.batches && !Exec(s, acts).db.batches[b].status.BatchRunning?
    decreases |acts|
  {
    hide Inv, Apply, Enabled;
    if acts != [] {
      StepEdges(s, acts[0]);
      StepKeepsInv(s, acts[0]);
      NeverRunsAgain(Apply(s, acts[0]), acts[1..], b);
    }
  }
}
