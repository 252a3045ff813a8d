/** Two invariants about single rows: how often a job was claimed, and that
    creation times follow the sequence numbers. */
module AttemptInvariant {
  import opened Wrappers
  import opened JobTables
  import opened JobSelection
  import opened TableInvariant
  import opened WorkerProtocol
  import opened WorkerInvariant

  /** The batches that ever claimed a job: batches are never deleted. */
  ghost function ClaimsOf(db: Db, q: nat): set<nat>
  {
    set b | b in db.batches && q in db.batches[b].jobIds
  }

  /** Those whose claim ran out. */
  ghost function ExpiriesOf(db: Db, q: nat): set<nat>
  {
    set b | b in db.batches && q in db.batches[b].jobIds && db.batches[b].expired
  }

  function Cap(job: Job): (cap: int)
  {
    if job.maxAttempts < 1 then 1 else job.maxAttempts
  }

  ghost predicate AttemptOk(db: Db, q: nat)
    requires q in db.jobs
  {
    var job := db.jobs[q];
    && job.attempts == |ClaimsOf(db, q)|
    && job.attempts + (if job.status.Pending? then 1 else 0) <= Cap(job) + |ExpiriesOf(db, q)|
  }

  ghost predicate AttemptsOk(db: Db)
  {
    && (forall q :: q in db.jobs ==> AttemptOk(db, q))
    && (forall b :: b in db.batches && db.batches[b].status.BatchRunning? ==> !db.batches[b].expired)
  }

  lemma {:induction false} SubsetCount(a: set<nat>, b: set<nat>)
    requires a <= b
    ensures |a| <= |b|
  {
    assert b == a + (b - a);
  }

  ghost predicate SameCreation(db: Db, db': Db)
  {
    forall q :: q in db'.jobs ==> q in db.jobs && db'.jobs[q].createdAt == db.jobs[q].createdAt
  }

  /** A transaction that neither adds a job, nor claims, nor expires, and requeues only jobs with attempts left. */
  ghost predicate Quiet(db: Db, db': Db)
  {
    && SameCreation(db, db')
    && db'.batches.Keys == db.batches.Keys
    && (forall b :: b in db.batches ==>
          && db'.batches[b].jobIds == db.batches[b].jobIds && db'.batches[b].expired == db.batches[b].expired
          && (db'.batches[b].status.BatchRunning? ==> db.batches[b].status.BatchRunning?))
    && (forall q :: q in db'.jobs && q in db.jobs ==>
          && db'.jobs[q].attempts == db.jobs[q].attempts && db'.jobs[q].maxAttempts == db.jobs[q].maxAttempts
          && (db'.jobs[q].status.Pending? ==> db.jobs[q].status.Pending? || db.jobs[q].attempts < db.jobs[q].maxAttempts))
  }

  lemma QuietAttempts(db: Db, db': Db)
    requires AttemptsOk(db) && Quiet(db, db')
    ensures AttemptsOk(db')
  {
    forall q | q in db'.jobs ensures AttemptOk(db', q) {
      assert AttemptOk(db, q);
      assert ClaimsOf(db', q) == ClaimsOf(db, q);
      assert ExpiriesOf(db', q) == ExpiriesOf(db, q);
    }
  }

  lemma MarkFailedQuiet(db: Db, b: nat, retry: bool, retryAt: int, clearRaw: bool)
    ensures Quiet(db, MarkFailedTx(db, b, retry, retryAt, clearRaw))
  {
  }

  lemma MarkDoneQuiet(db: Db, b: nat, clearRaw: bool)
    ensures Quiet(db, MarkDoneTx(db, b, clearRaw))
  {
  }

  lemma CommitQuiet(s: System, w: nat, clearRaw: bool)
    requires PcOf(s, w).Ready?
    ensures Quiet(s.db, ApplyCommit(s, w, clearRaw).db)
  {
    MarkDoneQuiet(s.db, PcOf(s, w).b, clearRaw);
  }

  lemma FailQuiet(s: System, w: nat, now: int, cfg: RetryPolicy.RetryConfig, clearRaw: bool)
    requires PcOf(s, w).Failing?
    ensures Quiet(s.db, ApplyMarkFailed(s, w, now, cfg, clearRaw).db)
  {
    var retry, retryAt := MarkFailedUnfolds(s, w, now, cfg, clearRaw);
    MarkFailedQuiet(s.db, PcOf(s, w).b, retry, retryAt, clearRaw);
  }

  lemma OutsideQuiet(db: Db, scope: SupersedeScope, query: JobQuery)
    ensures Quiet(db, SupersedeTx(db, scope)) && Quiet(db, ClearFailedTx(db, query))
  {
  }

  /** Every step but an enqueue and a claim is quiet. */
  lemma StepIsQuiet(s: System, a: Action)
    requires Enabled(s, a) && !a.Enqueue? && !a.Claim?
    ensures Quiet(s.db, Apply(s, a).db)
  {
    match a {
      case MarkFailed(w, now, cfg, clearRaw) => FailQuiet(s, w, now, cfg, clearRaw);
      case Commit(w, clearRaw) => CommitQuiet(s, w, clearRaw);
      case FinishBarrier(w, clearRaw) => MarkDoneQuiet(s.db, PcOf(s, w).b, clearRaw);
      case Supersede(scope) => OutsideQuiet(s.db, scope, JobQuery("", "", "", ""));
      case ClearFailed(query) => OutsideQuiet(s.db, All, query);
      case WriterSupersede(m) => OutsideQuiet(s.db, ByOwner(WriterOf(s, m).owner), JobQuery("", "", "", ""));
      case Enqueue(_, _) =>
      case Claim(_, _, _) =>
      case _ =>
        assert Apply(s, a).db.jobs == s.db.jobs && Apply(s, a).db.batches == s.db.batches;
    }
  }

  lemma EnqueueAttempts(db: Db, req: NewJob, now: int)
    requires TablesOk(db) && AttemptsOk(db)
    ensures AttemptsOk(EnqueueTx(db, req, now))
  {
    var db' := EnqueueTx(db, req, now);
    forall q | q in db'.jobs ensures AttemptOk(db', q) {
      assert ClaimsOf(db', q) == ClaimsOf(db, q);
      assert ExpiriesOf(db', q) == ExpiriesOf(db, q);
      if q in db.jobs && q != db.nextSeq {
        assert AttemptOk(db, q);
      } else {
        forall b | b in db.batches ensures q !in db.batches[b].jobIds { assert BatchOk(db, b); }
        assert ClaimsOf(db, q) == {};
      }
    }
  }

  lemma ReleaseSets(db: Db, now: int, q: nat)
    ensures ClaimsOf(ReleaseTx(db, now), q) == ClaimsOf(db, q)
    ensures ExpiriesOf(db, q) <= ExpiriesOf(ReleaseTx(db, now), q)
  {
  }

  lemma ReleasedExpiry(db: Db, now: int, q: nat)
    requires TablesOk(db) && AttemptsOk(db) && q in db.jobs && Expired(db.jobs[q], now)
    ensures |ExpiriesOf(ReleaseTx(db, now), q)| >= |ExpiriesOf(db, q)| + 1
  {
    assert RowOk(db, q);
    var b := db.jobs[q].batch.value;
    assert b in ExpiredBatches(db.jobs, now);
    ReleaseSets(db, now, q);
    assert b !in ExpiriesOf(db, q) && b in ExpiriesOf(ReleaseTx(db, now), q);
    SubsetCount(ExpiriesOf(db, q) + {b}, ExpiriesOf(ReleaseTx(db, now), q));
  }

  lemma ReleaseAttempts(db: Db, now: int)
    requires TablesOk(db) && AttemptsOk(db)
    ensures AttemptsOk(ReleaseTx(db, now))
  {
    forall q | q in db.jobs ensures AttemptOk(ReleaseTx(db, now), q) {
      assert AttemptOk(db, q);
      ReleaseSets(db, now, q);
      if Expired(db.jobs[q], now) {
        ReleasedExpiry(db, now, q);
      } else {
        SubsetCount(ExpiriesOf(db, q), ExpiriesOf(ReleaseTx(db, now), q));
      }
    }
  }

  lemma InsertSets(db: Db, picked: seq<nat>, b: nat, until: int, q: nat)
    requires b !in db.batches && Selected(db, picked)
    ensures ExpiriesOf(InsertClaim(db, picked, b, until), q) == ExpiriesOf(db, q)
    ensures ClaimsOf(InsertClaim(db, picked, b, until), q) == ClaimsOf(db, q) + (if q in picked then {b} else {})
  {
  }

  lemma InsertAttempts(db: Db, picked: seq<nat>, b: nat, until: int)
    requires AttemptsOk(db) && b !in db.batches && Selected(db, picked)
    ensures AttemptsOk(InsertClaim(db, picked, b, until))
  {
    forall q | q in db.jobs ensures AttemptOk(InsertClaim(db, picked, b, until), q) {
      assert AttemptOk(db, q);
      InsertSets(db, picked, b, until, q);
    }
  }

  lemma ClaimAttempts(released: Db, db': Db, claimed: Option<nat>, b: nat)
    requires AttemptsOk(released) && b !in released.batches && ClaimCase(released, db', claimed, b)
    ensures AttemptsOk(db')
  {
    if claimed.Some? {
      var picked, until :| Selected(released, picked) && db' == InsertClaim(released, picked, b, until);
      InsertAttempts(released, picked, b, until);
    }
  }

  lemma ClaimStepAttempts(s: System, w: nat, now: int, opts: ClaimOptions)
    requires Inv(s) && AttemptsOk(s.db)
    ensures AttemptsOk(ApplyClaim(s, w, now, opts).db)
  {
    ReleaseAttempts(s.db, now);
    ClaimCases(s.db, now, opts, s.nextId);
    ClaimAttempts(ReleaseTx(s.db, now), ClaimTx(s.db, now, opts, s.nextId).0, ClaimTx(s.db, now, opts, s.nextId).1, s.nextId);
  }

  lemma StepKeepsAttempts(s: System, a: Action)
    requires Inv(s) && AttemptsOk(s.db) && Enabled(s, a)
    ensures AttemptsOk(Apply(s, a).db)
  {
    match a {
      case Enqueue(req, now) => EnqueueAttempts(s.db, req, now);
      case Claim(w, now, opts) => ClaimStepAttempts(s, w, now, opts);
      case _ => StepIsQuiet(s, a); QuietAttempts(s.db, Apply(s, a).db);
    }
  }

  // ---------------------------------------------------------------- creation order

  ghost predicate CreatedOk(s: System)
  {
    && CreatedInOrder(s.db.jobs)
    && 0 <= s.clock
    && forall q :: q in s.db.jobs ==> s.db.jobs[q].createdAt <= s.clock
  }

  lemma ClaimCreation(released: Db, db': Db, claimed: Option<nat>, b: nat)
    requires ClaimCase(released, db', claimed, b)
    ensures SameCreation(released, db')
  {
    if claimed.Some? {
      var picked, until :| Selected(released, picked) && db' == InsertClaim(released, picked, b, until);
    }
  }

  lemma ClaimStepCreation(s: System, w: nat, now: int, opts: ClaimOptions)
    requires Inv(s)
    ensures SameCreation(s.db, ApplyClaim(s, w, now, opts).db)
  {
    ClaimCases(s.db, now, opts, s.nextId);
    ClaimCreation(ReleaseTx(s.db, now), ClaimTx(s.db, now, opts, s.nextId).0, ClaimTx(s.db, now, opts, s.nextId).1, s.nextId);
  }

  lemma StepClock(s: System, a: Action)
    requires Enabled(s, a)
    ensures Apply(s, a).clock >= s.clock
  {
  }

  lemma CreationKept(s: System, s': System)
    requires CreatedOk(s) && SameCreation(s.db, s'.db) && s.clock <= s'.clock
    ensures CreatedOk(s')
  {
  }

  lemma EnqueueCreation(s: System, req: NewJob, now: int)
    requires KeysBelow(s.db) && CreatedOk(s) && s.clock < now
    ensures CreatedOk(s.(db := EnqueueTx(s.db, req, now), clock := now))
  {
  }

  lemma StepKeepsCreated(s: System, a: Action)
    requires Inv(s) && CreatedOk(s) && Enabled(s, a)
    ensures CreatedOk(Apply(s, a))
  {
    if a.Enqueue? {
      EnqueueCreation(s, a.req, a.now);
    } else {
      StepClock(s, a);
      if a.Claim? {
        ClaimStepCreation(s, a.w, a.now, a.opts);
      } else {
        StepIsQuiet(s, a);
      }
      CreationKept(s, Apply(s, a));
    }
  }

  lemma {:induction false} RunKeepsRows(s: System, acts: seq<Action>)
    requires Inv(s) && AttemptsOk(s.db) && CreatedOk(s) && IsRun(s, acts)
    ensures Inv(Exec(s, acts)) && AttemptsOk(Exec(s, acts).db) && CreatedOk(Exec(s, acts))
    decreases |acts|
  {
    if acts != [] {
      StepKeepsInv(s, acts[0]);
      StepKeepsAttempts(s, acts[0]);
      StepKeepsCreated(s, acts[0]);
      RunKeepsRows(Apply(s, acts[0]), acts[1..]);
    }
  }

  lemma ReachableRows(s: System)
    requires Reachable(s)
    ensures Inv(s) && AttemptsOk(s.db) && CreatedOk(s)
  {
    var acts :| IsRun(START, acts) && Exec(START, acts) == s;
    assert Inv(START);
    RunKeepsRows(START, acts);
  }
}
