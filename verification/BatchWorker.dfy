/** One worker's turn over the store, as the program runs it, with everybody else at work
    between its calls: every such execution is a run of the protocol. */
module BatchWorker {
  import opened Wrappers
  import opened JobTables
  import opened JobStore
  import opened RetryPolicy
  import opened WorkerProtocol
  import opened TableInvariant
  import opened WorkerInvariant
  import opened StatusGraph

  function Actor(a: Action): Option<nat>
  {
    match a
    case Claim(w, _, _) => Some(w)
    case List(w) => Some(w)
    case FinishBarrier(w, _) => Some(w)
    case ReadMood(w) => Some(w)
    case Evaluate(w) => Some(w)
    case Check(w) => Some(w)
    case Stamp(w, _) => Some(w)
    case Commit(w, _) => Some(w)
    case GiveUp(w, _) => Some(w)
    case MarkFailed(w, _, _, _) => Some(w)
    case Crash(w) => Some(w)
    case _ => None
  }

  predicate ByOthers(me: nat, acts: seq<Action>)
  {
    forall a :: a in acts ==> Actor(a) != Some(me)
  }

  lemma {:induction false} ExecAppend(s: System, a: seq<Action>, b: seq<Action>)
    requires IsRun(s, a) && IsRun(Exec(s, a), b)
    ensures IsRun(s, a + b) && Exec(s, a + b) == Exec(Exec(s, a), b)
    decreases |a|
  {
    if a == [] {
      assert a + b == b;
    } else {
      assert (a + b)[0] == a[0] && (a + b)[1..] == a[1..] + b;
      ExecAppend(Apply(s, a[0]), a[1..], b);
    }
  }

  lemma ExecOne(s: System, past: seq<Action>, a: Action)
    requires IsRun(s, past) && Enabled(Exec(s, past), a)
    ensures IsRun(s, past + [a]) && Exec(s, past + [a]) == Apply(Exec(s, past), a)
  {
    var here := Exec(s, past);
    assert [a][1..] == [] && IsRun(Apply(here, a), []);
    assert IsRun(here, [a]) && Exec(here, [a]) == Exec(Apply(here, a), []);
    ExecAppend(s, past, [a]);
  }

  // ---- what others leave alone ----

  lemma OthersStep(s: System, a: Action, me: nat)
    requires Enabled(s, a) && Actor(a) != Some(me)
    ensures PcOf(Apply(s, a), me) == PcOf(s, me)
  {
    hide ClaimTx, MarkDoneTx, MarkFailedTx, CommitTx, ListByBatch, Latest, EnqueueTx, SupersedeTx, ClearFailedTx;
    hide RetryDelay, ShouldRetry, BaseStillCurrent;
  }

  lemma {:induction false} OthersRun(s: System, acts: seq<Action>, me: nat)
    requires IsRun(s, acts) && ByOthers(me, acts)
    ensures PcOf(Exec(s, acts), me) == PcOf(s, me)
    decreases |acts|
  {
    if acts != [] {
      assert acts[0] in acts;
      OthersStep(s, acts[0], me);
      OthersRun(Apply(s, acts[0]), acts[1..], me);
    }
  }

  ghost predicate SameKind(db: Db, db': Db, b: nat)
  {
    b in db.batches && b in db'.batches && db'.batches[b].jobType == db.batches[b].jobType
    && db'.batches[b].owner == db.batches[b].owner
  }

  lemma ClaimKind(db: Db, now: int, opts: ClaimOptions, id: nat, b: nat)
    requires b in db.batches && b != id
    ensures SameKind(db, ClaimTx(db, now, opts, id).0, b)
  {
    hide Picked;
    var picked := Picked(ReleaseTx(db, now), now, opts);
    if picked != [] {
      assert picked[0] in picked;
    }
  }

  lemma DoneKind(db: Db, done: nat, clearRaw: bool, b: nat)
    requires b in db.batches
    ensures SameKind(db, MarkDoneTx(db, done, clearRaw), b)
  {}

  lemma FailedKind(db: Db, failed: nat, retry: bool, retryAt: int, clearRaw: bool, b: nat)
    requires b in db.batches
    ensures SameKind(db, MarkFailedTx(db, failed, retry, retryAt, clearRaw), b)
  {}

  lemma CommitKind(s: System, w: nat, clearRaw: bool, b: nat)
    requires PcOf(s, w).Ready? && b in s.db.batches
    ensures SameKind(s.db, ApplyCommit(s, w, clearRaw).db, b)
  {
    hide CommitAllowed, MarkDoneTx;
    var pc := PcOf(s, w);
    var db := s.db.(moods := s.db.moods + [pc.row], events := s.db.events + [CommitEvent(pc)]);
    DoneKind(db, pc.b, clearRaw, b);
  }

  /** A batch's owner and type never change, and no batch disappears. */
  lemma StepKeepsKind(s: System, a: Action, b: nat)
    requires Inv(s) && Enabled(s, a) && b in s.db.batches
    ensures SameKind(s.db, Apply(s, a).db, b)
  {
    hide ClaimTx, MarkDoneTx, MarkFailedTx, ApplyCommit, ApplyMarkFailed, TablesOk;
    if a.Claim? {
      ClaimKind(s.db, a.now, a.opts, s.nextId, b);
    } else if a.FinishBarrier? {
      DoneKind(s.db, PcOf(s, a.w).b, a.clearRaw, b);
    } else if a.Commit? {
      CommitKind(s, a.w, a.clearRaw, b);
    } else if a.MarkFailed? {
      var retry, retryAt := MarkFailedUnfolds(s, a.w, a.now, a.cfg, a.clearRaw);
      FailedKind(s.db, PcOf(s, a.w).b, retry, retryAt, a.clearRaw, b);
    } else {
      OutsideKind(s, a);
    }
  }

  lemma OutsideKind(s: System, a: Action)
    requires Enabled(s, a) && !a.Claim? && !a.FinishBarrier? && !a.Commit? && !a.MarkFailed?
    ensures Apply(s, a).db.batches == s.db.batches
  {}

  lemma {:induction false} RunKeepsKind(s: System, acts: seq<Action>, b: nat)
    requires Inv(s) && IsRun(s, acts) && b in s.db.batches
    ensures SameKind(s.db, Exec(s, acts).db, b)
    decreases |acts|
  {
    if acts != [] {
      StepKeepsKind(s, acts[0], b);
      StepKeepsInv(s, acts[0]);
      RunKeepsKind(Apply(s, acts[0]), acts[1..], b);
    }
  }

  // ---- the worker ----

  /** How the parts the worker cannot see turn out: reading the jobs, reading the mood, the
      evaluation, and the second reading of the mood. */
  datatype Evaluation = Succeeds | Fails(retryable: bool)

  datatype Luck = Luck(listed: bool, moodRead: bool, evaluation: Evaluation, moodReadAgain: bool, marked: bool)

  datatype Config = Config(claim: ClaimOptions, retry: RetryConfig, clearDone: bool, clearFailed: bool)

  /** How a turn ends; an unmarked batch is one whose completion or failure could not be written. */
  datatype Turnout =
    | NothingClaimed
    | BarrierDone(b: nat)
    | Committed(b: nat)
    | Refused(b: nat)
    | GivenUp(b: nat)
    | Unmarked(b: nat)

  /** The batch and all its rows have the given statuses. */
  ghost predicate Finished(db: Db, b: nat, batch: BatchStatus, job: JobStatus)
  {
    b in db.batches && db.batches[b].status == batch
    && forall q :: q in db.jobs && db.jobs[q].batch == Some(b) ==> db.jobs[q].status == job
  }

  lemma DoneIsFinished(db: Db, b: nat, clearRaw: bool)
    requires b in db.batches
    ensures Finished(MarkDoneTx(db, b, clearRaw), b, BatchDone, JobStatus.Done)
  {}

  /** The jobs that are retried have left the batch. */
  lemma FailedIsFinished(db: Db, b: nat, retry: bool, retryAt: int, clearRaw: bool)
    requires b in db.batches
    ensures Finished(MarkFailedTx(db, b, retry, retryAt, clearRaw), b, BatchFailed, JobStatus.Failed)
  {}

  lemma ClaimOutcome(db: Db, now: int, opts: ClaimOptions, b: nat)
    requires b !in db.batches
    ensures ClaimTx(db, now, opts, b).1.None? ==> Picked(ClaimTx(db, now, opts, b).0, now, opts) == []
    ensures ClaimTx(db, now, opts, b).1.Some? ==> ClaimTx(db, now, opts, b).1.value == b
  {}

  lemma CommitOutcome(db: Db, b: nat, row: MoodRow, event: MoodEvent, clearRaw: bool)
    ensures var r := CommitTx(db, b, row, event, clearRaw);
            && r.Some? == CommitAllowed(db, b)
            && (r.Some? ==> Finished(r.value, b, BatchDone, JobStatus.Done))
  {
    if CommitAllowed(db, b) {
      DoneIsFinished(db.(moods := db.moods + [row], events := db.events + [event]), b, clearRaw);
    }
  }

  class Worker {
    const me: nat
    const store: Store
    const cfg: Config
    var workers: map<nat, Pc>
    var writers: map<nat, Writer>
    var clock: int
    var nextId: nat
    ghost var origin: System
    ghost var past: seq<Action>

    constructor (me: nat, cfg: Config, store: Store)
      requires Inv(System(store.Contents(), map[], map[], 0, 1))
      ensures this.me == me && this.store == store && this.cfg == cfg
      ensures Valid() && past == [] && Now() == System(store.Contents(), map[], map[], 0, 1)
    {
      this.me, this.store, this.cfg := me, store, cfg;
      workers, writers, clock, nextId := map[], map[], 0, 1;
      origin := System(store.Contents(), map[], map[], 0, 1);
      past := [];
    }

    /** The tables, and where every worker and writer is. */
    function Now(): System
      reads this, store
    {
      System(store.Contents(), workers, writers, clock, nextId)
    }

    /** What has happened so far is a run of the protocol. */
    ghost predicate Valid()
      reads this, store
    {
      Inv(Now()) && IsRun(origin, past) && Exec(origin, past) == Now()
    }

    /** On tables that were empty at the start, every state of the worker's execution is reachable. */
    lemma ValidIsReachable()
      requires Valid() && origin == START
      ensures Reachable(Now())
    {}

    /** Other workers and writers take any steps they can. */
    method Pause(acts: seq<Action>)
      requires Valid()
      modifies this, store
      ensures Valid() && origin == old(origin)
      ensures PcOf(Now(), me) == old(PcOf(Now(), me))
      ensures forall b :: b in old(store.batches) ==> SameKind(old(store.Contents()), store.Contents(), b)
    {
      if !IsRun(Now(), acts) || !ByOthers(me, acts) {
        return;
      }
      hide IsRun, Exec, Inv, ByOthers;
      var s := Exec(Now(), acts);
      RunKeepsInv(Now(), acts);
      OthersRun(Now(), acts, me);
      ExecAppend(origin, past, acts);
      forall b | b in store.batches ensures SameKind(store.Contents(), s.db, b) {
        RunKeepsKind(Now(), acts, b);
      }
      past := past + acts;
      store.jobs, store.batches, store.moods := s.db.jobs, s.db.batches, s.db.moods;
      store.events, store.nextSeq := s.db.events, s.db.nextSeq;
      workers, writers, clock, nextId := s.workers, s.writers, s.clock, s.nextId;
    }

    /** A later reading of the clock. */
    method Tick() returns (now: int)
      ensures now > clock
    {
      now := clock + 1;
    }

    /** The step just taken was an action of the protocol. */
    ghost method Note(before: System, a: Action)
      requires Inv(before) && IsRun(origin, past) && Exec(origin, past) == before
      requires Enabled(before, a) && Now() == Apply(before, a)
      modifies `past
      ensures Valid() && origin == old(origin)
    {
      ExecOne(origin, past, a);
      StepKeepsInv(before, a);
      past := past + [a];
    }

    /** The newest event and the newest mood row are those of the batch's commit. */
    ghost predicate CommittedLast(b: nat)
      reads store
    {
      |store.events| > 0 && |store.moods| > 0
      && store.events[|store.events| - 1].batch == Some(b)
      && store.events[|store.events| - 1].after == store.moods[|store.moods| - 1].id
    }

    /** What the tables show of a turn that has just ended. */
    ghost predicate Shows(turnout: Turnout, luck: Luck)
      reads this, store
    {
      match turnout
      case NothingClaimed => Picked(store.Contents(), clock, cfg.claim) == []
      case BarrierDone(b) => luck.marked && Finished(store.Contents(), b, BatchDone, JobStatus.Done)
      case Committed(b) => CommittedLast(b) && Finished(store.Contents(), b, BatchDone, JobStatus.Done)
      case Refused(b) => !IsRunning(store.Contents(), b)
      case GivenUp(b) => luck.marked && Finished(store.Contents(), b, BatchFailed, JobStatus.Failed)
      case Unmarked(_) => !luck.marked
    }

    method Claim() returns (b: Option<nat>)
      requires Valid() && PcOf(Now(), me).Idle?
      modifies this, store
      ensures Valid() && origin == old(origin)
      ensures b.None? ==> PcOf(Now(), me).Idle? && forall luck :: Shows(NothingClaimed, luck)
      ensures b.Some? ==> PcOf(Now(), me) == Claimed(b.value) && b.value in store.batches && b.value !in old(store.batches)
    {
      hide TablesOk, ClaimTx, IsRun, Exec, Picked;
      ghost var before := Now();
      var now := Tick();
      ClaimOutcome(store.Contents(), now, cfg.claim, nextId);
      b := store.ClaimNextBatch(now, cfg.claim, nextId);
      workers := workers[me := if b.Some? then Claimed(b.value) else Idle];
      clock, nextId := now, nextId + 1;
      Note(before, Action.Claim(me, now, cfg.claim));
      if b.Some? {
        assert Holds(store.Contents(), PcOf(Now(), me));
      }
    }

    method ListJobs(b: nat) returns (jobs: seq<Job>)
      requires Valid() && PcOf(Now(), me) == Claimed(b)
      modifies this, store
      ensures Valid() && origin == old(origin) && store.Contents() == old(store.Contents())
      ensures PcOf(Now(), me) == if jobs == [] then Failing(b, [], false) else Listed(b, jobs)
    {
      hide Inv, IsRun, Exec, ListByBatch;
      ghost var before := Now();
      jobs := ListByBatch(store.jobs, b, 0, store.nextSeq);
      workers := workers[me := if jobs == [] then Failing(b, [], false) else Listed(b, jobs)];
      Note(before, List(me));
    }

    /** failBatch: decide on a retry, and, after `others`, mark the batch and its jobs. */
    method FailBatch(b: nat, jobs: seq<Job>, retryable: bool, luck: Luck, others: seq<Action>) returns (turnout: Turnout)
      requires Valid() && PcOf(Now(), me) == Failing(b, jobs, retryable) && b in store.batches
      modifies this, store
      ensures Valid() && origin == old(origin) && PcOf(Now(), me).Idle?
      ensures Shows(turnout, luck) && turnout == if luck.marked then GivenUp(b) else Unmarked(b)
    {
      hide Inv, IsRun, Exec, Shows, ShouldRetry, RetryDelay;
      var again := ShouldRetryJobs(jobs);
      var delay, _ := ComputeRetryDelay(cfg.retry, jobs);
      Pause(others);
      turnout := MarkFailure(b, jobs, retryable, again, delay, luck);
    }

    method MarkFailure(b: nat, jobs: seq<Job>, retryable: bool, again: bool, delay: int, luck: Luck)
      returns (turnout: Turnout)
      requires Valid() && PcOf(Now(), me) == Failing(b, jobs, retryable) && b in store.batches
      requires again == ShouldRetry(jobs) && delay == RetryDelay(cfg.retry, jobs)
      modifies this, store
      ensures Valid() && origin == old(origin) && PcOf(Now(), me).Idle?
      ensures Shows(turnout, luck) && turnout == if luck.marked then GivenUp(b) else Unmarked(b)
    {
      hide Inv, IsRun, Exec, MarkFailedTx, ShouldRetry, RetryDelay, Finished;
      ghost var before := Now();
      if !luck.marked {
        workers := workers[me := Idle];
        Note(before, Crash(me));
        return Unmarked(b);
      }
      var now := Tick();
      store.MarkBatchFailed(b, retryable && again, now + delay, cfg.clearFailed);
      workers, clock := workers[me := Idle], now;
      Note(before, MarkFailed(me, now, cfg.retry, cfg.clearFailed));
      FailedIsFinished(before.db, b, retryable && again, now + delay, cfg.clearFailed);
      turnout := GivenUp(b);
    }

    /** The worker gives its batch up after an error, which may call for a retry. */
    method Surrender(b: nat, jobs: seq<Job>, retryable: bool)
      requires Valid() && Enabled(Now(), GiveUp(me, retryable)) && PcOf(Now(), me).b == b
      requires jobs == if PcOf(Now(), me).Claimed? then [] else PcOf(Now(), me).jobs
      modifies this
      ensures Valid() && origin == old(origin) && PcOf(Now(), me) == Failing(b, jobs, retryable)
    {
      hide Inv, IsRun, Exec;
      ghost var before := Now();
      workers := workers[me := Failing(b, jobs, retryable)];
      Note(before, GiveUp(me, retryable));
    }

    method FinishBarrier(b: nat, jobs: seq<Job>, luck: Luck) returns (turnout: Turnout)
      requires Valid() && PcOf(Now(), me) == Listed(b, jobs) && IsBarrier(Now(), b)
      modifies this, store
      ensures Valid() && origin == old(origin) && PcOf(Now(), me).Idle?
      ensures Shows(turnout, luck) && turnout == if luck.marked then BarrierDone(b) else Unmarked(b)
    {
      hide Inv, IsRun, Exec, MarkDoneTx;
      ghost var before := Now();
      if !luck.marked {
        workers := workers[me := Idle];
        Note(before, Crash(me));
        return Unmarked(b);
      }
      store.MarkBatchDone(b, cfg.clearDone);
      workers := workers[me := Idle];
      Note(before, Action.FinishBarrier(me, cfg.clearDone));
      DoneIsFinished(before.db, b, cfg.clearDone);
      turnout := BarrierDone(b);
    }

    method ReadMood(b: nat, jobs: seq<Job>, owner: MoodOwner) returns (before: Option<MoodRow>)
      requires Valid() && PcOf(Now(), me) == Listed(b, jobs) && b in store.batches && !IsBarrier(Now(), b)
      requires owner == store.batches[b].owner
      modifies this
      ensures Valid() && origin == old(origin)
      ensures PcOf(Now(), me).Based? && PcOf(Now(), me).b == b && PcOf(Now(), me).jobs == jobs
      ensures PcOf(Now(), me).before == before
    {
      hide Inv, IsRun, Exec, Latest;
      ghost var s := Now();
      before := Latest(store.moods, owner);
      workers := workers[me := Based(b, jobs, before, |store.moods|)];
      Note(s, Action.ReadMood(me));
    }

    method Evaluate(b: nat, jobs: seq<Job>, before: Option<MoodRow>, readAt: nat)
      requires Valid() && PcOf(Now(), me) == Based(b, jobs, before, readAt)
      modifies this
      ensures Valid() && origin == old(origin) && PcOf(Now(), me) == Evaluated(b, jobs, before, readAt)
    {
      hide Inv, IsRun, Exec;
      ghost var s := Now();
      workers := workers[me := Evaluated(b, jobs, before, readAt)];
      Note(s, Action.Evaluate(me));
    }

    /** ensureBatchBaseStillCurrent */
    method EnsureBase(b: nat, jobs: seq<Job>, before: Option<MoodRow>, readAt: nat, owner: MoodOwner) returns (current: bool)
      requires Valid() && PcOf(Now(), me) == Evaluated(b, jobs, before, readAt)
      requires b in store.batches && owner == store.batches[b].owner
      modifies this
      ensures Valid() && origin == old(origin)
      ensures current == BaseStillCurrent(before, Latest(store.moods, owner))
      ensures PcOf(Now(), me) == if current then Checked(b, jobs, before, readAt, |store.moods|) else Failing(b, jobs, false)
    {
      hide Inv, IsRun, Exec, Latest;
      ghost var s := Now();
      var latest := Latest(store.moods, owner);
      if before.None? {
        current := latest.None?;
      } else {
        current := !(latest.Some? && latest.value.id != before.value.id);
      }
      workers := workers[me := if current then Checked(b, jobs, before, readAt, |store.moods|) else Failing(b, jobs, false)];
      Note(s, Check(me));
    }

    /** buildBatchCommitRecords: the new row has a new id and the time of writing. */
    method BuildRecords(b: nat, jobs: seq<Job>, before: Option<MoodRow>, readAt: nat, checkAt: nat, owner: MoodOwner)
      returns (row: MoodRow)
      requires Valid() && PcOf(Now(), me) == Checked(b, jobs, before, readAt, checkAt)
      requires b in store.batches && owner == store.batches[b].owner
      modifies this
      ensures Valid() && origin == old(origin) && row.owner == owner
      ensures PcOf(Now(), me) == Ready(b, before, readAt, checkAt, row)
    {
      hide Inv, IsRun, Exec;
      ghost var s := Now();
      var now := Tick();
      row := MoodRow(nextId, owner, now);
      workers, clock, nextId := workers[me := Ready(b, before, readAt, checkAt, row)], now, nextId + 1;
      Note(s, Stamp(me, now));
    }

    method CommitBatch(b: nat, before: Option<MoodRow>, readAt: nat, checkAt: nat, row: MoodRow, luck: Luck)
      returns (turnout: Turnout)
      requires Valid() && PcOf(Now(), me) == Ready(b, before, readAt, checkAt, row)
      modifies this, store
      ensures Valid() && origin == old(origin) && PcOf(Now(), me).Idle?
      ensures turnout == Turnout.Committed(b) || turnout == Refused(b)
      ensures store.moods == old(store.moods) + if turnout.Committed? then [row] else []
      ensures store.events == old(store.events)
                              + if turnout.Committed? then [MoodEvent(Some(b), row.owner, RowId(before), row.id)] else []
      ensures Shows(turnout, luck)
    {
      hide IsRun, Exec, CommitAllowed, TablesOk;
      ghost var s := Now();
      if b in store.batches {
        RunningCountIsExact(store.Contents(), b);
      }
      var ok := store.CommitBatchEvaluation(b, row, MoodEvent(Some(b), row.owner, RowId(before), row.id), cfg.clearDone);
      workers := workers[me := Idle];
      Note(s, Commit(me, cfg.clearDone));
      CommitOutcome(s.db, b, row, MoodEvent(Some(b), row.owner, RowId(before), row.id), cfg.clearDone);
      turnout := if ok then Turnout.Committed(b) else Refused(b);
    }

    /** The rest of a turn, for a batch of turns to evaluate. */
    method EvaluateBatch(b: nat, jobs: seq<Job>, owner: MoodOwner, luck: Luck, others: nat -> seq<Action>)
      returns (turnout: Turnout)
      requires Valid() && PcOf(Now(), me) == Listed(b, jobs) && !IsBarrier(Now(), b)
      requires b in store.batches && store.batches[b].owner == owner
      modifies this, store
      ensures Valid() && origin == old(origin) && PcOf(Now(), me).Idle?
      ensures Shows(turnout, luck) && !turnout.NothingClaimed? && turnout.b == b
    {
      hide Inv, IsRun, Exec, BaseStillCurrent, Latest, Shows;
      if !luck.moodRead {
        Surrender(b, jobs, true);
        turnout := FailBatch(b, jobs, true, luck, others(7));
        return;
      }
      var before := ReadMood(b, jobs, owner);
      var readAt := PcOf(Now(), me).readAt;
      Pause(others(3));
      if luck.evaluation.Fails? {
        Surrender(b, jobs, luck.evaluation.retryable);
        turnout := FailBatch(b, jobs, luck.evaluation.retryable, luck, others(7));
        return;
      }
      Evaluate(b, jobs, before, readAt);
      Pause(others(4));
      turnout := CommitEvaluated(b, jobs, before, readAt, owner, luck, others);
    }

    /** One turn of a worker.  `others` is what everybody else does before each of its steps. */
    method ProcessNextBatch(luck: Luck, others: nat -> seq<Action>) returns (turnout: Turnout)
      requires Valid() && PcOf(Now(), me).Idle?
      modifies this, store
      ensures Valid() && origin == old(origin) && PcOf(Now(), me).Idle?
      ensures Shows(turnout, luck)
      ensures !turnout.NothingClaimed? ==> turnout.b !in old(store.batches)
    {
      hide Inv, IsRun, Exec, BaseStillCurrent, Latest, Shows;
      Pause(others(0));
      var claimed := Claim();
      if claimed.None? {
        return NothingClaimed;
      }
      turnout := RunClaimed(claimed.value, luck, others);
    }

    /** A turn from its claim on. */
    method RunClaimed(b: nat, luck: Luck, others: nat -> seq<Action>) returns (turnout: Turnout)
      requires Valid() && PcOf(Now(), me) == Claimed(b) && b in store.batches
      modifies this, store
      ensures Valid() && origin == old(origin) && PcOf(Now(), me).Idle?
      ensures Shows(turnout, luck) && !turnout.NothingClaimed? && turnout.b == b
    {
      hide Inv, IsRun, Exec, Shows;
      var owner, jobType := store.batches[b].owner, store.batches[b].jobType;
      Pause(others(1));
      if !luck.listed {
        Surrender(b, [], false);
        turnout := FailBatch(b, [], false, luck, others(7));
        return;
      }
      var jobs := ListJobs(b);
      Pause(others(2));
      if |jobs| == 0 {
        turnout := FailBatch(b, jobs, false, luck, others(7));
        return;
      }
      if jobType.Barrier? {
        turnout := FinishBarrier(b, jobs, luck);
        return;
      }
      turnout := EvaluateBatch(b, jobs, owner, luck, others);
    }

    /** The end of a turn whose evaluation has succeeded. */
    method CommitEvaluated(b: nat, jobs: seq<Job>, before: Option<MoodRow>, readAt: nat, owner: MoodOwner,
                           luck: Luck, others: nat -> seq<Action>)
      returns (turnout: Turnout)
      requires Valid() && PcOf(Now(), me) == Evaluated(b, jobs, before, readAt)
      requires b in store.batches && store.batches[b].owner == owner
      modifies this, store
      ensures Valid() && origin == old(origin) && PcOf(Now(), me).Idle?
      ensures Shows(turnout, luck) && !turnout.NothingClaimed? && turnout.b == b
    {
      hide Inv, IsRun, Exec, BaseStillCurrent, Latest, Shows;
      if !luck.moodReadAgain {
        Surrender(b, jobs, false);
        turnout := FailBatch(b, jobs, false, luck, others(7));
        return;
      }
      var current := EnsureBase(b, jobs, before, readAt, owner);
      Pause(others(5));
      if !current {
        turnout := FailBatch(b, jobs, false, luck, others(7));
        return;
      }
      var checkAt := PcOf(Now(), me).checkAt;
      var row := BuildRecords(b, jobs, before, readAt, checkAt, owner);
      Pause(others(6));
      turnout := CommitBatch(b, before, readAt, checkAt, row, luck);
    }
  }
}
