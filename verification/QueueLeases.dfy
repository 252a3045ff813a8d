/** Leases, said of the rows alone: which claims a poll takes away, and how long a claim holds. */
module QueueLeases {
  import opened Wrappers
  import opened JobTables
  import opened JobSelection
  import opened TableInvariant
  import opened WorkerProtocol
  import opened WorkerInvariant
  import opened StatusGraph

  // ---------------------------------------------------------------- who loses a claim

  /** A poll returns exactly the running rows whose lease is at or before its time to the queue, and
      fails exactly their running batches. */
  lemma ReleaseByLease(db: Db, now: int)
    ensures var after := ReleaseTx(db, now);
            && after == db.(jobs := after.jobs, batches := after.batches)
            && after.jobs.Keys == db.jobs.Keys && after.batches.Keys == db.batches.Keys
            && (forall q :: q in db.jobs ==>
                  if db.jobs[q].status == Running && db.jobs[q].claimedUntil.Some? && db.jobs[q].claimedUntil.value <= now
                  then after.jobs[q] == db.jobs[q].(status := Pending, batch := None, claimedUntil := None)
                  else after.jobs[q] == db.jobs[q])
            && (forall b :: b in db.batches ==>
                  if db.batches[b].status == BatchRunning
                     && exists q :: q in db.jobs && db.jobs[q].status == Running && db.jobs[q].batch == Some(b)
                                    && db.jobs[q].claimedUntil.Some? && db.jobs[q].claimedUntil.value <= now
                  then after.batches[b] == db.batches[b].(status := BatchFailed, expired := true)
                  else after.batches[b] == db.batches[b])
  {
    forall b | b in ExpiredBatches(db.jobs, now)
      ensures exists q :: q in db.jobs && db.jobs[q].status == Running && db.jobs[q].batch == Some(b)
                          && db.jobs[q].claimedUntil.Some? && db.jobs[q].claimedUntil.value <= now
    {
      var q :| q in db.jobs && Expired(db.jobs[q], now) && db.jobs[q].batch == Some(b);
    }
  }

  /** So no running row is left whose lease has run out. */
  lemma NoLeaseIsOver(db: Db, now: int)
    ensures forall q :: q in ReleaseTx(db, now).jobs && ReleaseTx(db, now).jobs[q].status.Running? ==>
              ReleaseTx(db, now).jobs[q].claimedUntil.None? || now < ReleaseTx(db, now).jobs[q].claimedUntil.value
  {
    hide ReleaseTx;
    ReleaseByLease(db, now);
  }

  /** The batch runs, and all its jobs run under one lease. */
  ghost predicate Leased(db: Db, b: nat, until: int)
  {
    && b in db.batches && db.batches[b].status == BatchRunning
    && (exists q :: q in db.jobs && db.jobs[q].batch == Some(b))
    && forall q :: q in db.jobs && db.jobs[q].batch == Some(b) ==>
         db.jobs[q].status == Running && db.jobs[q].claimedUntil == Some(until)
  }

  lemma SameRowsLeased(db: Db, db': Db, b: nat, until: int)
    requires Leased(db, b, until) && SameRows(db, db', b)
    requires b in db'.batches && db'.batches[b] == db.batches[b]
    ensures Leased(db', b, until)
  {
    var q :| q in db.jobs && db.jobs[q].batch == Some(b);
    assert q in db'.jobs && db'.jobs[q].batch == Some(b);
  }

  // ---------------------------------------------------------------- taking a claim

  lemma KeysAreBelow(db: Db)
    requires TablesOk(db)
    ensures KeysBelow(db)
  {}

  lemma ReleaseKeepsKeys(db: Db, now: int)
    ensures ReleaseTx(db, now).batches.Keys == db.batches.Keys
  {}

  lemma ClaimUnfolds(s: System, w: nat, now: int, opts: ClaimOptions)
    ensures var released := ReleaseTx(s.db, now);
            var picked := Picked(released, now, opts);
            var after := ApplyClaim(s, w, now, opts);
            && released.batches.Keys == s.db.batches.Keys
            && PcOf(after, w) == (if picked == [] then Idle else Claimed(s.nextId))
            && (picked == [] ==> after.db == released)
            && (picked != [] ==> picked[0] in released.jobs
                                 && after.db == InsertClaim(released, picked, s.nextId, now + ClaimTTL(opts)))
  {
    var picked := Picked(ReleaseTx(s.db, now), now, opts);
    ReleaseKeepsKeys(s.db, now);
    hide Picked, ReleaseTx, InsertClaim, ClaimTTL;
    if picked != [] {
      assert picked[0] in picked;
    }
  }

  /** A batch that has just been claimed is leased for the configured time, or for five minutes. */
  lemma ClaimIsLeased(s: System, w: nat, now: int, opts: ClaimOptions)
    requires Inv(s) && PcOf(ApplyClaim(s, w, now, opts), w).Claimed?
    ensures PcOf(ApplyClaim(s, w, now, opts), w) == Claimed(s.nextId)
    ensures Leased(ApplyClaim(s, w, now, opts).db, s.nextId,
                   now + if opts.claimTTL > 0 then opts.claimTTL else 300_000_000_000)
  {
    hide ReleaseTx, InsertClaim, Leased, Picked, ApplyClaim, Selected, TablesOk;
    ClaimUnfolds(s, w, now, opts);
    var released := ReleaseTx(s.db, now);
    var picked := Picked(released, now, opts);
    ReleaseKeeps(s.db, now);
    KeysAreBelow(released);
    PickedIsSelected(released, now, opts);
    InsertIsLeased(released, picked, s.nextId, now + ClaimTTL(opts));
  }

  lemma InsertIsLeased(db: Db, picked: seq<nat>, b: nat, until: int)
    requires TablesOk(db) && b !in db.batches && Selected(db, picked)
    ensures Leased(InsertClaim(db, picked, b, until), b, until)
  {
    var db' := InsertClaim(db, picked, b, until);
    assert picked[0] in picked;
    assert db'.jobs[picked[0]].batch == Some(b);
    forall q | q in db.jobs ensures db.jobs[q].batch != Some(b) { assert RowOk(db, q); }
  }

  // ---------------------------------------------------------------- keeping a claim

  /** The step neither finishes nor fails the batch, and is no poll at or after its lease. */
  predicate Spares(s: System, a: Action, b: nat, until: int)
    requires Enabled(s, a)
  {
    match a
    case Claim(_, now, _) => now < until
    case FinishBarrier(w, _) => PcOf(s, w).b != b
    case Commit(w, _) => PcOf(s, w).b != b
    case MarkFailed(w, _, _, _) => PcOf(s, w).b != b
    case _ => true
  }

  lemma ReleaseSparesIff(db: Db, b: nat, until: int, now: int)
    requires Leased(db, b, until)
    ensures if now < until then Leased(ReleaseTx(db, now), b, until)
            else b in ReleaseTx(db, now).batches && !ReleaseTx(db, now).batches[b].status.BatchRunning?
  {
    hide ReleaseTx;
    ReleaseByLease(db, now);
    var q :| q in db.jobs && db.jobs[q].batch == Some(b);
    if now < until {
      SameRowsLeased(db, ReleaseTx(db, now), b, until);
    }
  }

  lemma InsertSpares(db: Db, picked: seq<nat>, c: nat, until: int, b: nat, lease: int)
    requires Leased(db, b, lease) && c != b && Selected(db, picked)
    ensures Leased(InsertClaim(db, picked, c, until), b, lease)
  {
    SameRowsLeased(db, InsertClaim(db, picked, c, until), b, lease);
  }

  lemma ClaimSparesIff(s: System, w: nat, now: int, opts: ClaimOptions, b: nat, until: int)
    requires Inv(s) && Leased(s.db, b, until)
    ensures var db := ApplyClaim(s, w, now, opts).db;
            if now < until then Leased(db, b, until) else b in db.batches && !db.batches[b].status.BatchRunning?
  {
    hide ReleaseTx, InsertClaim, Leased, Picked, ApplyClaim, Selected, TablesOk;
    ClaimUnfolds(s, w, now, opts);
    var released := ReleaseTx(s.db, now);
    ReleaseSparesIff(s.db, b, until, now);
    ReleaseKeeps(s.db, now);
    KeysAreBelow(released);
    assert b in s.db.batches by { IsLeased(s.db, b, until); }
    PickedIsSelected(released, now, opts);
    var picked := Picked(released, now, opts);
    if picked != [] {
      InsertKeepsOthers(released, picked, s.nextId, now + ClaimTTL(opts), b);
      if now < until {
        InsertSpares(released, picked, s.nextId, now + ClaimTTL(opts), b, until);
      }
    }
  }

  lemma IsLeased(db: Db, b: nat, until: int)
    requires Leased(db, b, until)
    ensures IsRunning(db, b)
  {}

  lemma InsertKeepsOthers(db: Db, picked: seq<nat>, c: nat, until: int, b: nat)
    requires Selected(db, picked) && b in db.batches && b != c
    ensures b in InsertClaim(db, picked, c, until).batches
    ensures InsertClaim(db, picked, c, until).batches[b] == db.batches[b]
  {}

  lemma FinishSpares(db: Db, c: nat, b: nat, until: int, retry: bool, retryAt: int, clearRaw: bool)
    requires Leased(db, b, until)
    ensures if c != b then Leased(MarkDoneTx(db, c, clearRaw), b, until)
            else b in db.batches && !MarkDoneTx(db, c, clearRaw).batches[b].status.BatchRunning?
    ensures if c != b then Leased(MarkFailedTx(db, c, retry, retryAt, clearRaw), b, until)
            else b in db.batches && !MarkFailedTx(db, c, retry, retryAt, clearRaw).batches[b].status.BatchRunning?
  {
    if c != b {
      SameRowsLeased(db, MarkDoneTx(db, c, clearRaw), b, until);
      SameRowsLeased(db, MarkFailedTx(db, c, retry, retryAt, clearRaw), b, until);
    }
  }

  lemma OutsideSpares(db: Db, b: nat, until: int, scope: SupersedeScope, query: JobQuery, req: NewJob, now: int)
    requires KeysBelow(db) && Leased(db, b, until)
    ensures Leased(SupersedeTx(db, scope), b, until)
    ensures Leased(ClearFailedTx(db, query), b, until)
    ensures Leased(EnqueueTx(db, req, now), b, until)
  {
    SameRowsLeased(db, SupersedeTx(db, scope), b, until);
    SameRowsLeased(db, ClearFailedTx(db, query), b, until);
    SameRowsLeased(db, EnqueueTx(db, req, now), b, until);
  }

  lemma CommitSpares(s: System, w: nat, clearRaw: bool, b: nat, until: int)
    requires Inv(s) && PcOf(s, w).Ready? && Leased(s.db, b, until)
    ensures if PcOf(s, w).b != b then Leased(ApplyCommit(s, w, clearRaw).db, b, until)
            else b in ApplyCommit(s, w, clearRaw).db.batches && !ApplyCommit(s, w, clearRaw).db.batches[b].status.BatchRunning?
  {
    hide MarkDoneTx, Leased;
    var c, db := PcOf(s, w).b, s.db;
    IsLeased(db, b, until);
    if c == b {
      RunningCountIsExact(db, b);
    }
    if CommitAllowed(db, c) {
      var more := db.(moods := db.moods + [PcOf(s, w).row], events := db.events + [CommitEvent(PcOf(s, w))]);
      AppendedLeased(db, more, b, until);
      FinishSpares(more, c, b, until, false, 0, clearRaw);
      DoneKeepsKeys(more, c, clearRaw);
    }
  }

  lemma AppendedLeased(db: Db, db': Db, b: nat, until: int)
    requires Leased(db, b, until) && db'.jobs == db.jobs && db'.batches == db.batches
    ensures Leased(db', b, until)
  {}

  lemma DoneKeepsKeys(db: Db, c: nat, clearRaw: bool)
    ensures MarkDoneTx(db, c, clearRaw).batches.Keys == db.batches.Keys
  {}

  lemma FailedSpares(s: System, w: nat, now: int, cfg: RetryPolicy.RetryConfig, clearRaw: bool, b: nat, until: int)
    requires PcOf(s, w).Failing? && Leased(s.db, b, until)
    ensures var db := ApplyMarkFailed(s, w, now, cfg, clearRaw).db;
            if PcOf(s, w).b != b then Leased(db, b, until) else b in db.batches && !db.batches[b].status.BatchRunning?
  {
    var retry, retryAt := MarkFailedUnfolds(s, w, now, cfg, clearRaw);
    FinishSpares(s.db, PcOf(s, w).b, b, until, retry, retryAt, clearRaw);
  }

  /** One step leaves a leased batch its lease exactly when it spares it; otherwise the batch runs no more. */
  lemma StepSparesIff(s: System, a: Action, b: nat, until: int)
    requires Inv(s) && Enabled(s, a) && Leased(s.db, b, until)
    ensures var db := Apply(s, a).db;
            if Spares(s, a, b, until) then Leased(db, b, until) else b in db.batches && !db.batches[b].status.BatchRunning?
  {
    hide Leased, MarkDoneTx, ApplyClaim, ApplyCommit, ApplyMarkFailed, Inv;
    match a {
      case Claim(w, now, opts) => ClaimSparesIff(s, w, now, opts, b, until);
      case FinishBarrier(w, clearRaw) =>
        FinishSpares(s.db, PcOf(s, w).b, b, until, false, 0, clearRaw);
        DoneKeepsKeys(s.db, PcOf(s, w).b, clearRaw);
      case Commit(w, clearRaw) => CommitSpares(s, w, clearRaw, b, until);
      case MarkFailed(w, now, cfg, clearRaw) => FailedSpares(s, w, now, cfg, clearRaw, b, until);
      case Enqueue(_, _) => OtherStepSpares(s, a, b, until);
      case Supersede(_) => OtherStepSpares(s, a, b, until);
      case ClearFailed(_) => OtherStepSpares(s, a, b, until);
      case WriterSupersede(_) => OtherStepSpares(s, a, b, until);
      case _ => LocalStepSpares(s, a, b, until);
    }
  }

  /** The steps that touch only rows outside batches, or failed ones. */
  lemma OtherStepSpares(s: System, a: Action, b: nat, until: int)
    requires Inv(s) && Enabled(s, a) && Leased(s.db, b, until)
    requires a.Enqueue? || a.Supersede? || a.ClearFailed? || a.WriterSupersede?
    ensures Leased(Apply(s, a).db, b, until)
  {
    hide Leased, SupersedeTx, ClearFailedTx, EnqueueTx;
    match a {
      case Enqueue(req, now) => OutsideSpares(s.db, b, until, All, NO_QUERY, req, now);
      case Supersede(scope) => OutsideSpares(s.db, b, until, scope, NO_QUERY, NO_JOB, 0);
      case ClearFailed(query) => OutsideSpares(s.db, b, until, All, query, NO_JOB, 0);
      case WriterSupersede(m) => OutsideSpares(s.db, b, until, ByOwner(WriterOf(s, m).owner), NO_QUERY, NO_JOB, 0);
    }
  }

  /** The steps that touch no queue table. */
  lemma LocalStepSpares(s: System, a: Action, b: nat, until: int)
    requires Enabled(s, a) && Leased(s.db, b, until)
    requires a.List? || a.ReadMood? || a.Evaluate? || a.Check? || a.Stamp? || a.GiveUp? || a.Crash?
             || a.WriterRead? || a.WriterStamp? || a.WriterCommit? || a.WriterAbort?
    ensures Leased(Apply(s, a).db, b, until)
  {
    hide Leased, ListByBatch, Latest;
    AppendedLeased(s.db, Apply(s, a).db, b, until);
  }

  predicate AllSpare(s: System, acts: seq<Action>, b: nat, until: int)
    requires IsRun(s, acts)
    decreases |acts|
  {
    acts == [] || (Spares(s, acts[0], b, until) && AllSpare(Apply(s, acts[0]), acts[1..], b, until))
  }

  lemma {:induction false} LeaseHoldsIff(s: System, acts: seq<Action>, b: nat, until: int)
    requires Inv(s) && IsRun(s, acts) && Leased(s.db, b, until)
    ensures if AllSpare(s, acts, b, until) then Leased(Exec(s, acts).db, b, until)
            else !IsRunning(Exec(s, acts).db, b)
    decreases |acts|
  {
    hide Inv, Apply, Enabled, Leased, Spares;
    if acts != [] {
      StepSparesIff(s, acts[0], b, until);
      StepKeepsInv(s, acts[0]);
      if Spares(s, acts[0], b, until) {
        LeaseHoldsIff(Apply(s, acts[0]), acts[1..], b, until);
      } else {
        NeverRunsAgain(Apply(s, acts[0]), acts[1..], b);
      }
    }
  }

  /** In every run a claimed batch stays with its worker, all its jobs running under the lease it
      was given, exactly as long as no poll reads a clock at or after that lease and the batch is
      neither finished nor failed. */
  lemma ClaimHoldsIff(s: System, w: nat, now: int, opts: ClaimOptions, acts: seq<Action>)
    requires Reachable(s) && Enabled(s, Claim(w, now, opts)) && PcOf(ApplyClaim(s, w, now, opts), w).Claimed?
    requires IsRun(ApplyClaim(s, w, now, opts), acts)
    ensures var until := now + if opts.claimTTL > 0 then opts.claimTTL else 300_000_000_000;
            var end := Exec(ApplyClaim(s, w, now, opts), acts).db;
            if AllSpare(ApplyClaim(s, w, now, opts), acts, s.nextId, until)
            then Leased(end, s.nextId, until) else !IsRunning(end, s.nextId)
  {
    hide Inv, Leased, ApplyClaim, AllSpare, IsRun, Exec;
    ReachableInv(s);
    ClaimIsLeased(s, w, now, opts);
    StepKeepsInv(s, Claim(w, now, opts));
    LeaseHoldsIff(ApplyClaim(s, w, now, opts), acts, s.nextId, now + if opts.claimTTL > 0 then opts.claimTTL else 300_000_000_000);
  }
}
