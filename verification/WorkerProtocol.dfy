/** Any number of batch workers and manual mood writers over one set of tables.

    A worker's turn through ProcessNextBatch is a program counter; each action
    is one transaction, one read, or one local decision, so a run is any
    interleaving of them.  Every reading of the clock is later than the one
    before it.  `readAt` and `checkAt` are history: how many mood rows existed
    when the worker read, and later re-read, its owner's mood. */
module WorkerProtocol {
  import opened Wrappers
  import opened JobTables
  import opened RetryPolicy

  datatype Pc =
    | Idle
    | Claimed(b: nat)
    | Listed(b: nat, jobs: seq<Job>)
    | Based(b: nat, jobs: seq<Job>, before: Option<MoodRow>, readAt: nat)
    | Evaluated(b: nat, jobs: seq<Job>, before: Option<MoodRow>, readAt: nat)
    | Checked(b: nat, jobs: seq<Job>, before: Option<MoodRow>, readAt: nat, checkAt: nat)
    | Ready(b: nat, before: Option<MoodRow>, readAt: nat, checkAt: nat, row: MoodRow)
    | Failing(b: nat, jobs: seq<Job>, retryable: bool)

  /** ApplyMoodDelta and ResetMood: read the mood, stamp the new row, supersede, commit. */
  datatype Writer =
    | Away
    | Reading(owner: MoodOwner, before: Option<MoodRow>)
    | Stamped(owner: MoodOwner, before: Option<MoodRow>, row: MoodRow)
    | Cleared(owner: MoodOwner, before: Option<MoodRow>, row: MoodRow)

  datatype System = System(
    db: Db, workers: map<nat, Pc>, writers: map<nat, Writer>, clock: int, nextId: nat)

  datatype Action =
    | Enqueue(req: NewJob, now: int)
    | Claim(w: nat, now: int, opts: ClaimOptions)
    | List(w: nat)
    | FinishBarrier(w: nat, clearRaw: bool)
    | ReadMood(w: nat)
    | Evaluate(w: nat)
    | Check(w: nat)
    | Stamp(w: nat, now: int)
    | Commit(w: nat, clearRaw: bool)
    | GiveUp(w: nat, retryable: bool)
    | MarkFailed(w: nat, now: int, cfg: RetryConfig, clearRaw: bool)
    | Crash(w: nat)
    | WriterRead(m: nat, owner: MoodOwner)
    | WriterStamp(m: nat, now: int)
    | WriterSupersede(m: nat)
    | WriterCommit(m: nat)
    | WriterAbort(m: nat)
    | Supersede(scope: SupersedeScope)
    | ClearFailed(query: JobQuery)

  const START := System(Db(map[], map[], [], [], 1), map[], map[], 0, 1)

  function PcOf(s: System, w: nat): Pc
  {
    if w in s.workers then s.workers[w] else Idle
  }

  function WriterOf(s: System, m: nat): Writer
  {
    if m in s.writers then s.writers[m] else Away
  }

  function To(s: System, w: nat, pc: Pc): System
  {
    s.(workers := s.workers[w := pc])
  }

  function RowId(row: Option<MoodRow>): Option<nat>
  {
    match row
    case None => None
    case Some(r) => Some(r.id)
  }

  /** ensureBatchBaseStillCurrent */
  predicate BaseStillCurrent(before: Option<MoodRow>, latest: Option<MoodRow>)
  {
    if before.None? then latest.None? else latest.None? || latest.value.id == before.value.id
  }

  predicate IsBarrier(s: System, b: nat)
  {
    b in s.db.batches && s.db.batches[b].jobType.Barrier?
  }

  predicate Enabled(s: System, a: Action)
  {
    match a
    case Enqueue(_, now) => s.clock < now
    case Claim(w, now, _) => PcOf(s, w).Idle? && s.clock < now
    case List(w) => PcOf(s, w).Claimed?
    case FinishBarrier(w, _) => PcOf(s, w).Listed? && IsBarrier(s, PcOf(s, w).b)
    case ReadMood(w) => PcOf(s, w).Listed? && PcOf(s, w).b in s.db.batches && !IsBarrier(s, PcOf(s, w).b)
    case Evaluate(w) => PcOf(s, w).Based?
    case Check(w) => PcOf(s, w).Evaluated? && PcOf(s, w).b in s.db.batches
    case Stamp(w, now) => PcOf(s, w).Checked? && PcOf(s, w).b in s.db.batches && s.clock < now
    case Commit(w, _) => PcOf(s, w).Ready?
    case GiveUp(w, retryable) =>
      var pc := PcOf(s, w);
      || (pc.Claimed? && !retryable)
      || (pc.Listed? && retryable && !IsBarrier(s, pc.b))
      || pc.Based?
      || (pc.Evaluated? && !retryable)
    case MarkFailed(w, now, _, _) => PcOf(s, w).Failing? && s.clock < now
    case Crash(w) => !PcOf(s, w).Idle?
    case WriterRead(m, _) => WriterOf(s, m).Away?
    case WriterStamp(m, now) => WriterOf(s, m).Reading? && s.clock < now
    case WriterSupersede(m) => WriterOf(s, m).Stamped?
    case WriterCommit(m) => WriterOf(s, m).Stamped? || WriterOf(s, m).Cleared?
    case WriterAbort(m) => !WriterOf(s, m).Away?
    case Supersede(_) => true
    case ClearFailed(_) => true
  }

  function Apply(s: System, a: Action): System
    requires Enabled(s, a)
  {
    match a
    case Enqueue(req, now) => s.(db := EnqueueTx(s.db, req, now), clock := now)
    case Claim(w, now, opts) => ApplyClaim(s, w, now, opts)
    case List(w) => ApplyList(s, w)
    case FinishBarrier(w, clearRaw) =>
      To(s, w, Idle).(db := MarkDoneTx(s.db, PcOf(s, w).b, clearRaw))
    case ReadMood(w) =>
      var pc := PcOf(s, w);
      To(s, w, Based(pc.b, pc.jobs, Latest(s.db.moods, s.db.batches[pc.b].owner), |s.db.moods|))
    case Evaluate(w) =>
      var pc := PcOf(s, w);
      To(s, w, Evaluated(pc.b, pc.jobs, pc.before, pc.readAt))
    case Check(w) => ApplyCheck(s, w)
    case Stamp(w, now) =>
      var pc := PcOf(s, w);
      var row := MoodRow(s.nextId, s.db.batches[pc.b].owner, now);
      To(s, w, Ready(pc.b, pc.before, pc.readAt, pc.checkAt, row)).(clock := now, nextId := s.nextId + 1)
    case Commit(w, clearRaw) => ApplyCommit(s, w, clearRaw)
    case GiveUp(w, retryable) =>
      var pc := PcOf(s, w);
      To(s, w, Failing(pc.b, if pc.Claimed? then [] else pc.jobs, retryable))
    case MarkFailed(w, now, cfg, clearRaw) => ApplyMarkFailed(s, w, now, cfg, clearRaw)
    case Crash(w) => To(s, w, Idle)
    case WriterRead(m, owner) =>
      s.(writers := s.writers[m := Reading(owner, Latest(s.db.moods, owner))])
    case WriterStamp(m, now) =>
      var wr := WriterOf(s, m);
      s.(writers := s.writers[m := Stamped(wr.owner, wr.before, MoodRow(s.nextId, wr.owner, now))],
         clock := now, nextId := s.nextId + 1)
    case WriterSupersede(m) =>
      var wr := WriterOf(s, m);
      s.(db := SupersedeTx(s.db, ByOwner(wr.owner)), writers := s.writers[m := Cleared(wr.owner, wr.before, wr.row)])
    case WriterCommit(m) =>
      var wr := WriterOf(s, m);
      s.(db := CommitStateEventTx(s.db, wr.row, MoodEvent(None, wr.owner, RowId(wr.before), wr.row.id)),
         writers := s.writers[m := Away])
    case WriterAbort(m) => s.(writers := s.writers[m := Away])
    case Supersede(scope) => s.(db := SupersedeTx(s.db, scope))
    case ClearFailed(query) => s.(db := ClearFailedTx(s.db, query))
  }

  function ApplyClaim(s: System, w: nat, now: int, opts: ClaimOptions): System
  {
    var (db, claimed) := ClaimTx(s.db, now, opts, s.nextId);
    To(s, w, if claimed.Some? then Claimed(claimed.value) else Idle).(db := db, clock := now, nextId := s.nextId + 1)
  }

  /** A batch whose jobs are gone is failed without retry. */
  function ApplyList(s: System, w: nat): System
    requires PcOf(s, w).Claimed?
  {
    var b := PcOf(s, w).b;
    var jobs := ListByBatch(s.db.jobs, b, 0, s.db.nextSeq);
    To(s, w, if jobs == [] then Failing(b, [], false) else Listed(b, jobs))
  }

  function ApplyCheck(s: System, w: nat): System
    requires PcOf(s, w).Evaluated? && PcOf(s, w).b in s.db.batches
  {
    var pc := PcOf(s, w);
    var latest := Latest(s.db.moods, s.db.batches[pc.b].owner);
    To(s, w,
       if BaseStillCurrent(pc.before, latest)
       then Checked(pc.b, pc.jobs, pc.before, pc.readAt, |s.db.moods|)
       else Failing(pc.b, pc.jobs, false))
  }

  function CommitEvent(pc: Pc): MoodEvent
    requires pc.Ready?
  {
    MoodEvent(Some(pc.b), pc.row.owner, RowId(pc.before), pc.row.id)
  }

  function ApplyCommit(s: System, w: nat, clearRaw: bool): System
    requires PcOf(s, w).Ready?
  {
    var pc := PcOf(s, w);
    match CommitTx(s.db, pc.b, pc.row, CommitEvent(pc), clearRaw)
    case None => To(s, w, Idle)
    case Some(db) => To(s, w, Idle).(db := db)
  }

  /** failBatch: retried when the cause allows it and some job of the list has attempts left. */
  function ApplyMarkFailed(s: System, w: nat, now: int, cfg: RetryConfig, clearRaw: bool): System
    requires PcOf(s, w).Failing?
  {
    var pc := PcOf(s, w);
    var retry := pc.retryable && ShouldRetry(pc.jobs);
    To(s, w, Idle).(db := MarkFailedTx(s.db, pc.b, retry, now + RetryDelay(cfg, pc.jobs), clearRaw), clock := now)
  }

  lemma MarkFailedUnfolds(s: System, w: nat, now: int, cfg: RetryConfig, clearRaw: bool)
    returns (retry: bool, retryAt: int)
    requires PcOf(s, w).Failing?
    ensures retry <==> PcOf(s, w).retryable && ShouldRetry(PcOf(s, w).jobs)
    ensures retryAt == now + RetryDelay(cfg, PcOf(s, w).jobs)
    ensures ApplyMarkFailed(s, w, now, cfg, clearRaw)
         == To(s, w, Idle).(db := MarkFailedTx(s.db, PcOf(s, w).b, retry, retryAt, clearRaw), clock := now)
  {
    retry := PcOf(s, w).retryable && ShouldRetry(PcOf(s, w).jobs);
    retryAt := now + RetryDelay(cfg, PcOf(s, w).jobs);
  }

  // ---------------------------------------------------------------- runs

  predicate IsRun(s: System, acts: seq<Action>)
    decreases |acts|
  {
    acts == [] || (Enabled(s, acts[0]) && IsRun(Apply(s, acts[0]), acts[1..]))
  }

  function Exec(s: System, acts: seq<Action>): System
    requires IsRun(s, acts)
    decreases |acts|
  {
    if acts == [] then s else Exec(Apply(s, acts[0]), acts[1..])
  }

  ghost predicate Reachable(s: System)
  {
    exists acts :: IsRun(START, acts) && Exec(START, acts) == s
  }
}
