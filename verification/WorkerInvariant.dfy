/** What every step of every worker and writer keeps: the tables agree, each
    batch has at most one holder, and a holder whose claim was released holds
    nothing any more. */
module WorkerInvariant {
  import opened Wrappers
  import opened JobTables
  import opened JobSelection
  import opened TableInvariant
  import opened WorkerProtocol

  /** Program points at which the worker carries the list of its batch's jobs. */
  predicate HasJobs(pc: Pc)
  {
    pc.Listed? || pc.Based? || pc.Evaluated? || pc.Checked? || (pc.Failing? && pc.retryable)
  }

  predicate IsRunning(db: Db, b: nat)
  {
    b in db.batches && db.batches[b].status.BatchRunning?
  }

  ghost predicate Holds(db: Db, pc: Pc)
    requires !pc.Idle?
  {
    && Finishable(db, pc.b)
    && (HasJobs(pc) && IsRunning(db, pc.b) ==> pc.jobs == ListByBatch(db.jobs, pc.b, 0, db.nextSeq))
  }

  ghost predicate WorkersOk(s: System)
  {
    && (forall w :: w in s.workers && !s.workers[w].Idle? ==> Holds(s.db, s.workers[w]))
    && (forall w, v | w in s.workers && v in s.workers && !s.workers[w].Idle? && !s.workers[v].Idle?
                      && s.workers[w].b == s.workers[v].b :: w == v)
    && (forall b :: b in s.db.batches ==> b < s.nextId)
  }

  ghost predicate Inv(s: System)
  {
    TablesOk(s.db) && WorkersOk(s)
  }

  lemma {:induction false} ListFrame(jobs: map<nat, Job>, jobs': map<nat, Job>, b: nat, lo: nat, hi: nat, hi': nat)
    requires hi <= hi'
    requires forall q :: q in jobs && jobs[q].batch == Some(b) ==> q in jobs' && jobs'[q] == jobs[q]
    requires forall q :: q in jobs' && jobs'[q].batch == Some(b) ==> q in jobs && jobs'[q] == jobs[q] && q < hi
    ensures ListByBatch(jobs, b, lo, hi) == ListByBatch(jobs', b, lo, hi')
    decreases hi' - lo
  {
    if lo < hi' {
      ListFrame(jobs, jobs', b, lo + 1, hi, hi');
    }
  }

  lemma {:induction false} ListContents(jobs: map<nat, Job>, b: nat, lo: nat, hi: nat)
    ensures forall j :: j in ListByBatch(jobs, b, lo, hi) <==>
              exists q :: lo <= q < hi && q in jobs && jobs[q].batch == Some(b) && jobs[q] == j
    decreases hi - lo
  {
    if lo < hi {
      ListContents(jobs, b, lo + 1, hi);
    }
  }

  lemma HoldsFrame(db: Db, db': Db, pc: Pc)
    requires KeysBelow(db) && KeysBelow(db') && db.nextSeq <= db'.nextSeq
    requires !pc.Idle? && Holds(db, pc) && Framed(db, db', pc.b)
    ensures Holds(db', pc)
  {
    if HasJobs(pc) && IsRunning(db', pc.b) {
      ListFrame(db.jobs, db'.jobs, pc.b, 0, db.nextSeq, db'.nextSeq);
    }
  }

  /** One worker moves; the tables change only at the batch it held. */
  lemma WorkerMoves(s: System, s': System, w: nat)
    requires Inv(s) && TablesOk(s'.db)
    requires w in s'.workers && s'.workers == s.workers[w := s'.workers[w]]
    requires s.db.nextSeq <= s'.db.nextSeq && s.nextId <= s'.nextId
    requires forall b :: b in s'.db.batches ==> b < s'.nextId
    requires forall c | c in s.db.batches && (PcOf(s, w).Idle? || c != PcOf(s, w).b) :: Framed(s.db, s'.db, c)
    requires var pc := s'.workers[w];
             !pc.Idle? ==> Holds(s'.db, pc) && ((!PcOf(s, w).Idle? && pc.b == PcOf(s, w).b) || pc.b !in s.db.batches)
    ensures Inv(s')
  {
    forall v | v in s'.workers && !s'.workers[v].Idle? ensures Holds(s'.db, s'.workers[v]) {
      if v != w {
        assert Holds(s.db, s.workers[v]);
        HoldsFrame(s.db, s'.db, s.workers[v]);
      }
    }
  }

  /** No worker moves and every batch is framed. */
  lemma TablesMove(s: System, s': System)
    requires Inv(s) && TablesOk(s'.db) && s'.workers == s.workers
    requires s.db.nextSeq <= s'.db.nextSeq && s.nextId <= s'.nextId
    requires s'.db.batches.Keys == s.db.batches.Keys
    requires FramedBut(s.db, s'.db, None)
    ensures Inv(s')
  {
    forall v | v in s'.workers && !s'.workers[v].Idle? ensures Holds(s'.db, s'.workers[v]) {
      assert Holds(s.db, s.workers[v]);
      HoldsFrame(s.db, s'.db, s.workers[v]);
    }
  }

  lemma FramedSelf(db: Db)
    ensures FramedBut(db, db, None)
  {
    forall b | b in db.batches ensures Framed(db, db, b) {}
  }

  lemma ClaimStep(s: System, w: nat, now: int, opts: ClaimOptions)
    requires Inv(s) && PcOf(s, w).Idle?
    ensures Inv(ApplyClaim(s, w, now, opts))
  {
    var released := ReleaseTx(s.db, now);
    ReleaseKeeps(s.db, now);
    ClaimCases(s.db, now, opts, s.nextId);
    ClaimStepFrom(s, w, now, released, ClaimTx(s.db, now, opts, s.nextId).0, ClaimTx(s.db, now, opts, s.nextId).1);
  }

  lemma ClaimStepFrom(s: System, w: nat, now: int, released: Db, db: Db, claimed: Option<nat>)
    requires Inv(s) && PcOf(s, w).Idle?
    requires TablesOk(released) && FramedBut(s.db, released, None)
    requires released.nextSeq == s.db.nextSeq && released.batches.Keys == s.db.batches.Keys
    requires ClaimCase(released, db, claimed, s.nextId)
    ensures Inv(To(s, w, if claimed.Some? then Claimed(claimed.value) else Idle).(db := db, clock := now, nextId := s.nextId + 1))
  {
    ClaimKeeps(s.db, released, db, claimed, s.nextId);
    ClaimMoves(s, w, now, db, claimed);
  }

  lemma ClaimMoves(s: System, w: nat, now: int, db: Db, claimed: Option<nat>)
    requires Inv(s) && PcOf(s, w).Idle?
    requires TablesOk(db) && FramedBut(s.db, db, None) && db.nextSeq == s.db.nextSeq
    requires db.batches.Keys == s.db.batches.Keys + (if claimed.Some? then {s.nextId} else {})
    requires claimed.Some? ==> claimed == Some(s.nextId) && db.batches[s.nextId].status.BatchRunning?
    ensures Inv(To(s, w, if claimed.Some? then Claimed(claimed.value) else Idle).(db := db, clock := now, nextId := s.nextId + 1))
  {
    WorkerMoves(s, To(s, w, if claimed.Some? then Claimed(claimed.value) else Idle).(db := db, clock := now, nextId := s.nextId + 1), w);
  }

  lemma ListStep(s: System, w: nat)
    requires Inv(s) && Enabled(s, List(w))
    ensures Inv(Apply(s, List(w)))
  {
    var s' := Apply(s, List(w));
    FramedSelf(s.db);
    assert Holds(s.db, s.workers[w]);
    WorkerMoves(s, s', w);
  }

  lemma BarrierStep(s: System, w: nat, clearRaw: bool)
    requires Inv(s) && Enabled(s, FinishBarrier(w, clearRaw))
    ensures Inv(Apply(s, FinishBarrier(w, clearRaw)))
  {
    assert Holds(s.db, s.workers[w]);
    MarkDoneKeeps(s.db, PcOf(s, w).b, clearRaw);
    WorkerMoves(s, Apply(s, FinishBarrier(w, clearRaw)), w);
  }

  lemma CommitStep(s: System, w: nat, clearRaw: bool)
    requires Inv(s) && Enabled(s, Commit(w, clearRaw))
    ensures Inv(Apply(s, Commit(w, clearRaw)))
  {
    var pc := PcOf(s, w);
    assert Holds(s.db, s.workers[w]);
    FramedSelf(s.db);
    if CommitAllowed(s.db, pc.b) {
      CommitKeeps(s.db, pc.b, pc.row, CommitEvent(pc), clearRaw);
    }
    WorkerMoves(s, Apply(s, Commit(w, clearRaw)), w);
  }

  lemma FailMoves(s: System, w: nat, clock: int, retry: bool, retryAt: int, clearRaw: bool)
    requires Inv(s) && !PcOf(s, w).Idle?
    ensures Inv(To(s, w, Idle).(db := MarkFailedTx(s.db, PcOf(s, w).b, retry, retryAt, clearRaw), clock := clock))
  {
    assert Holds(s.db, s.workers[w]);
    MarkFailedKeeps(s.db, PcOf(s, w).b, retry, retryAt, clearRaw);
    var db := MarkFailedTx(s.db, PcOf(s, w).b, retry, retryAt, clearRaw);
    FinishedMoves(s, w, clock, db);
  }

  lemma FinishedMoves(s: System, w: nat, clock: int, db: Db)
    requires Inv(s) && !PcOf(s, w).Idle?
    requires TablesOk(db) && FramedBut(s.db, db, Some(PcOf(s, w).b))
    requires db.batches.Keys == s.db.batches.Keys && db.nextSeq == s.db.nextSeq
    ensures Inv(To(s, w, Idle).(db := db, clock := clock))
  {
    WorkerMoves(s, To(s, w, Idle).(db := db, clock := clock), w);
  }

  lemma FailStep(s: System, w: nat, now: int, cfg: RetryPolicy.RetryConfig, clearRaw: bool)
    requires Inv(s) && PcOf(s, w).Failing?
    ensures Inv(ApplyMarkFailed(s, w, now, cfg, clearRaw))
  {
    var retry, retryAt := MarkFailedUnfolds(s, w, now, cfg, clearRaw);
    FailMoves(s, w, now, retry, retryAt, clearRaw);
  }

  /** The decisions that touch no table. */
  lemma LocalStep(s: System, a: Action)
    requires Inv(s) && Enabled(s, a)
    requires a.ReadMood? || a.Evaluate? || a.Check? || a.Stamp? || a.GiveUp? || a.Crash?
    ensures Inv(Apply(s, a))
  {
    FramedSelf(s.db);
    assert Holds(s.db, s.workers[a.w]);
    WorkerMoves(s, Apply(s, a), a.w);
  }

  lemma OutsideStep(s: System, a: Action)
    requires Inv(s) && Enabled(s, a)
    requires a.Enqueue? || a.Supersede? || a.ClearFailed?
    ensures Inv(Apply(s, a))
  {
    match a {
      case Enqueue(req, now) => EnqueueKeeps(s.db, req, now);
      case Supersede(scope) => SupersedeKeeps(s.db, scope);
      case ClearFailed(query) => ClearFailedKeeps(s.db, query);
    }
    TablesMove(s, Apply(s, a));
  }

  lemma WriterStep(s: System, a: Action)
    requires Inv(s) && Enabled(s, a)
    requires a.WriterRead? || a.WriterStamp? || a.WriterSupersede? || a.WriterCommit? || a.WriterAbort?
    ensures Inv(Apply(s, a))
  {
    FramedSelf(s.db);
    match a {
      case WriterSupersede(m) => SupersedeKeeps(s.db, ByOwner(WriterOf(s, m).owner));
      case WriterCommit(m) =>
        var wr := WriterOf(s, m);
        StateEventKeeps(s.db, wr.row, MoodEvent(None, wr.owner, RowId(wr.before), wr.row.id));
      case _ =>
    }
    TablesMove(s, Apply(s, a));
  }

  /** One step of anyone keeps the invariant. */
  lemma StepKeepsInv(s: System, a: Action)
    requires Inv(s) && Enabled(s, a)
    ensures Inv(Apply(s, a))
  {
    match a {
      case Enqueue(_, _) => OutsideStep(s, a);
      case Supersede(_) => OutsideStep(s, a);
      case ClearFailed(_) => OutsideStep(s, a);
      case Claim(w, now, opts) => ClaimStep(s, w, now, opts);
      case List(w) => ListStep(s, w);
      case FinishBarrier(w, clearRaw) => BarrierStep(s, w, clearRaw);
      case Commit(w, clearRaw) => CommitStep(s, w, clearRaw);
      case MarkFailed(w, now, cfg, clearRaw) => FailStep(s, w, now, cfg, clearRaw);
      case ReadMood(_) => LocalStep(s, a);
      case Evaluate(_) => LocalStep(s, a);
      case Check(_) => LocalStep(s, a);
      case Stamp(_, _) => LocalStep(s, a);
      case GiveUp(_, _) => LocalStep(s, a);
      case Crash(_) => LocalStep(s, a);
      case WriterRead(_, _) => WriterStep(s, a);
      case WriterStamp(_, _) => WriterStep(s, a);
      case WriterSupersede(_) => WriterStep(s, a);
      case WriterCommit(_) => WriterStep(s, a);
      case WriterAbort(_) => WriterStep(s, a);
    }
  }

  lemma {:induction false} RunKeepsInv(s: System, acts: seq<Action>)
    requires Inv(s) && IsRun(s, acts)
    ensures Inv(Exec(s, acts))
    decreases |acts|
  {
    if acts != [] {
      StepKeepsInv(s, acts[0]);
      RunKeepsInv(Apply(s, acts[0]), acts[1..]);
    }
  }

  lemma ReachableInv(s: System)
    requires Reachable(s)
    ensures Inv(s)
  {
    var acts :| IsRun(START, acts) && Exec(START, acts) == s;
    assert Inv(START);
    RunKeepsInv(START, acts);
  }
}
