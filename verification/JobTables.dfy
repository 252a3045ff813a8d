/** The two queue tables, the mood tables, and every SQL transaction on them as
    a function from the tables before to the tables after.  The class in
    JobStore.dfy runs the same transactions in place. */
module JobTables {
  import opened Wrappers

  datatype JobType = TurnEvaluate | PluginEvaluate | ManualEvaluate | Barrier
  datatype JobStatus = Pending | Running | Done | Failed | Superseded
  datatype BatchStatus = BatchRunning | BatchDone | BatchFailed

  datatype MoodOwner = MoodOwner(scope: string, id: string)

  /** One row of agent_affect_jobs.  `chars` is the total length of the four raw
      text columns; a time of 0 is the zero time. */
  datatype Job = Job(
    persona: string,
    session: string,
    owner: MoodOwner,
    jobType: JobType,
    batchable: bool,
    status: JobStatus,
    runAfter: int,
    attempts: nat,
    maxAttempts: int,
    claimedUntil: Option<int>,
    batch: Option<nat>,
    createdAt: int,
    chars: nat)

  /** One row of agent_affect_job_batches.  `expired` is history: no transaction
      reads it, it only remembers that the claim ran out. */
  datatype Batch = Batch(
    persona: string,
    owner: MoodOwner,
    jobType: JobType,
    status: BatchStatus,
    jobCount: nat,
    jobIds: seq<nat>,
    expired: bool)

  /** A row of agent_affect_states; `stamp` is updated_at. */
  datatype MoodRow = MoodRow(id: nat, owner: MoodOwner, stamp: int)

  /** A row of agent_affect_events; a manual writer leaves `batch` empty. */
  datatype MoodEvent = MoodEvent(batch: Option<nat>, owner: MoodOwner, before: Option<nat>, after: nat)

  datatype Db = Db(
    jobs: map<nat, Job>,
    batches: map<nat, Batch>,
    moods: seq<MoodRow>,
    events: seq<MoodEvent>,
    nextSeq: nat)

  datatype ClaimOptions = ClaimOptions(
    maxJobs: int, claimTTL: int, maxAge: int, minWait: int, maxInputTokens: int, splitSessions: bool)

  const SECOND := 1_000_000_000
  const DEFAULT_CLAIM_TTL := 5 * 60 * SECOND
  const FIRST_JOB_SCAN_LIMIT := 100
  const ZERO_TIME := 0

  // ---------------------------------------------------------------- enqueue

  datatype NewJob = NewJob(
    persona: string, session: string, owner: MoodOwner, jobType: JobType, batchable: bool,
    runAfter: int, maxAttempts: int, chars: nat)

  function EnqueueTx(db: Db, req: NewJob, now: int): Db
  {
    var job := Job(req.persona, req.session, req.owner, req.jobType, req.batchable, Pending,
                   if req.runAfter == ZERO_TIME then now else req.runAfter, 0,
                   if req.maxAttempts == 0 then 3 else req.maxAttempts,
                   None, None, now, req.chars);
    db.(jobs := db.jobs[db.nextSeq := job], nextSeq := db.nextSeq + 1)
  }

  // ---------------------------------------------------------------- release of expired claims

  predicate Expired(job: Job, now: int)
  {
    job.status.Running? && job.claimedUntil.Some? && job.claimedUntil.value <= now
  }

  function ExpiredBatches(jobs: map<nat, Job>, now: int): set<nat>
  {
    set q | q in jobs && Expired(jobs[q], now) && jobs[q].batch.Some? :: jobs[q].batch.value
  }

  function ExpireBatch(batch: Batch): Batch
  {
    if batch.status.BatchRunning? then batch.(status := BatchFailed, expired := true) else batch
  }

  function ReleaseTx(db: Db, now: int): Db
  {
    var ids := ExpiredBatches(db.jobs, now);
    db.(
      batches := map b | b in db.batches :: if b in ids then ExpireBatch(db.batches[b]) else db.batches[b],
      jobs := map q | q in db.jobs ::
        if Expired(db.jobs[q], now)
        then db.jobs[q].(status := Pending, batch := None, claimedUntil := None)
        else db.jobs[q])
  }

  // ---------------------------------------------------------------- choosing a batch

  predicate Due(job: Job, now: int)
  {
    job.status.Pending? && job.runAfter <= now
  }

  /** Keys of the due jobs in [lo, hi), ascending: the ORDER BY seq of both claim queries. */
  function DueRows(jobs: map<nat, Job>, now: int, lo: nat, hi: nat): (rows: seq<nat>)
    ensures forall q :: q in rows <==> lo <= q < hi && q in jobs && Due(jobs[q], now)
    ensures forall i, j :: 0 <= i < j < |rows| ==> rows[i] < rows[j]
    decreases hi - lo
  {
    if lo >= hi then []
    else
      var rest := DueRows(jobs, now, lo + 1, hi);
      assert forall i :: 0 <= i < |rest| ==> rest[i] in rest;
      if lo in jobs && Due(jobs[lo], now) then [lo] + rest else rest
  }

  function Limit<T>(rows: seq<T>, n: nat): seq<T>
  {
    if |rows| <= n then rows else rows[..n]
  }

  predicate Waited(job: Job, now: int, minWait: int)
  {
    !(minWait > 0 && job.createdAt != ZERO_TIME && now - job.createdAt < minWait)
  }

  predicate OwnerRunning(jobs: map<nat, Job>, owner: MoodOwner)
  {
    exists q :: q in jobs && jobs[q].owner == owner && jobs[q].status.Running?
  }

  predicate Claimable(jobs: map<nat, Job>, q: nat, now: int, minWait: int)
    requires q in jobs
  {
    Waited(jobs[q], now, minWait) && !OwnerRunning(jobs, jobs[q].owner)
  }

  function FirstClaimable(jobs: map<nat, Job>, rows: seq<nat>, now: int, minWait: int): (r: Option<nat>)
    requires forall q :: q in rows ==> q in jobs
  {
    if rows == [] then None
    else if Claimable(jobs, rows[0], now, minWait) then Some(rows[0])
    else FirstClaimable(jobs, rows[1..], now, minWait)
  }

  function MaxJobs(opts: ClaimOptions): nat
  {
    if opts.maxJobs <= 0 then 1 else opts.maxJobs
  }

  function TokenEstimate(job: Job): nat
  {
    if job.chars == 0 then 1 else job.chars / 4 + 1
  }

  /** The owner, type, session and age tests against the first job of the batch. */
  predicate Joins(first: Job, job: Job, opts: ClaimOptions)
  {
    && job.owner == first.owner
    && job.jobType == first.jobType
    && (opts.splitSessions ==> job.session == first.session)
    && !(opts.maxAge > 0 && job.createdAt != ZERO_TIME && first.createdAt != ZERO_TIME
         && job.createdAt - first.createdAt > opts.maxAge)
  }

  predicate Solitary(job: Job)
  {
    job.jobType.Barrier? || !job.batchable
  }

  /** Number of rows the claim loop keeps, continued from `k` rows kept and `used` tokens spent. */
  function Extend(jobs: map<nat, Job>, rows: seq<nat>, first: Job, opts: ClaimOptions, k: nat, used: nat): (n: nat)
    requires k <= |rows|
    requires forall q :: q in rows ==> q in jobs
    ensures k <= n <= |rows|
    decreases |rows| - k
  {
    if k == |rows| then k
    else
      var job := jobs[rows[k]];
      var tokens := TokenEstimate(job);
      if !Joins(first, job, opts) then k
      else if opts.maxInputTokens > 0 && k > 0 && used + tokens > opts.maxInputTokens then k
      else if Solitary(job) then (if k == 0 then 1 else k)
      else if k + 1 >= MaxJobs(opts) then k + 1
      else Extend(jobs, rows, first, opts, k + 1, used + tokens)
  }

  function FirstRows(db: Db, now: int): (rows: seq<nat>)
    ensures forall q :: q in rows ==> q in db.jobs && Due(db.jobs[q], now)
  {
    Limit(DueRows(db.jobs, now, 0, db.nextSeq), FIRST_JOB_SCAN_LIMIT)
  }

  function CandidateRows(db: Db, now: int, first: nat, opts: ClaimOptions): (rows: seq<nat>)
    ensures forall q :: q in rows ==> q in db.jobs && Due(db.jobs[q], now) && first <= q
  {
    Limit(DueRows(db.jobs, now, first, db.nextSeq), MaxJobs(opts) + 1)
  }

  /** The job keys that a claim takes, given tables whose expired claims are already released. */
  function Picked(db: Db, now: int, opts: ClaimOptions): (picked: seq<nat>)
    ensures forall q :: q in picked ==> q in db.jobs && Due(db.jobs[q], now)
  {
    match FirstClaimable(db.jobs, FirstRows(db, now), now, opts.minWait)
    case None => []
    case Some(first) =>
      var rows := CandidateRows(db, now, first, opts);
      if first in db.jobs then rows[..Extend(db.jobs, rows, db.jobs[first], opts, 0, 0)] else []
  }

  // ---------------------------------------------------------------- claim

  function ClaimTTL(opts: ClaimOptions): (ttl: int)
    ensures ttl > 0
  {
    if opts.claimTTL <= 0 then DEFAULT_CLAIM_TTL else opts.claimTTL
  }

  function ClaimJob(job: Job, b: nat, until: int): Job
  {
    if job.status.Pending?
    then job.(status := Running, batch := Some(b), claimedUntil := Some(until), attempts := job.attempts + 1)
    else job
  }

  function BatchRecord(jobs: map<nat, Job>, picked: seq<nat>): Batch
    requires |picked| > 0 && picked[0] in jobs
  {
    var first := jobs[picked[0]];
    Batch(first.persona, first.owner, first.jobType, BatchRunning, |picked|, picked, false)
  }

  function InsertClaim(db: Db, picked: seq<nat>, b: nat, until: int): Db
    requires |picked| > 0 && picked[0] in db.jobs
  {
    db.(
      batches := db.batches[b := BatchRecord(db.jobs, picked)],
      jobs := map q | q in db.jobs :: if q in picked then ClaimJob(db.jobs[q], b, until) else db.jobs[q])
  }

  function ClaimTx(db: Db, now: int, opts: ClaimOptions, b: nat): (r: (Db, Option<nat>))
  {
    var released := ReleaseTx(db, now);
    var picked := Picked(released, now, opts);
    if picked == [] then (released, None)
    else
      assert picked[0] in picked;
      (InsertClaim(released, picked, b, now + ClaimTTL(opts)), Some(b))
  }

  // ---------------------------------------------------------------- finishing a batch

  function ClearedChars(job: Job, clearRaw: bool): nat
  {
    if clearRaw then 0 else job.chars
  }

  function SetBatchStatus(batches: map<nat, Batch>, b: nat, status: BatchStatus): map<nat, Batch>
  {
    if b in batches then batches[b := batches[b].(status := status)] else batches
  }

  function MarkDoneTx(db: Db, b: nat, clearRaw: bool): Db
  {
    db.(
      batches := SetBatchStatus(db.batches, b, BatchDone),
      jobs := map q | q in db.jobs ::
        if db.jobs[q].batch == Some(b)
        then db.jobs[q].(status := Done, chars := ClearedChars(db.jobs[q], clearRaw))
        else db.jobs[q])
  }

  function FailJob(job: Job, retry: bool, retryAt: int, clearRaw: bool): Job
  {
    if retry && job.attempts < job.maxAttempts
    then job.(status := Pending, batch := None, claimedUntil := None, runAfter := retryAt)
    else job.(status := Failed, chars := ClearedChars(job, !retry && clearRaw))
  }

  function MarkFailedTx(db: Db, b: nat, retry: bool, retryAt: int, clearRaw: bool): Db
  {
    db.(
      batches := SetBatchStatus(db.batches, b, BatchFailed),
      jobs := map q | q in db.jobs ::
        if db.jobs[q].batch == Some(b) then FailJob(db.jobs[q], retry, retryAt, clearRaw) else db.jobs[q])
  }

  function RunningOf(jobs: map<nat, Job>, b: nat): set<nat>
  {
    set q | q in jobs && jobs[q].batch == Some(b) && jobs[q].status.Running?
  }

  predicate CommitAllowed(db: Db, b: nat)
  {
    && b in db.batches
    && db.batches[b].status.BatchRunning?
    && db.batches[b].jobCount > 0
    && |RunningOf(db.jobs, b)| == db.batches[b].jobCount
  }

  /** None is ErrAffectBatchNotRunning: the transaction is rolled back. */
  function CommitTx(db: Db, b: nat, row: MoodRow, event: MoodEvent, clearRaw: bool): Option<Db>
  {
    if !CommitAllowed(db, b) then None
    else Some(MarkDoneTx(db.(moods := db.moods + [row], events := db.events + [event]), b, clearRaw))
  }

  // ---------------------------------------------------------------- other writers

  /** Which pending jobs SupersedePendingJobs addresses; a request that names nothing is refused. */
  datatype SupersedeScope = ByOwner(owner: MoodOwner) | ByPersona(persona: string) | All | Unscoped

  predicate InScope(scope: SupersedeScope, job: Job)
  {
    match scope
    case ByOwner(owner) => job.owner == owner
    case ByPersona(persona) => job.persona == persona
    case All => true
    case Unscoped => false
  }

  function SupersedeTx(db: Db, scope: SupersedeScope): Db
  {
    db.(jobs := map q | q in db.jobs ::
          if db.jobs[q].status.Pending? && InScope(scope, db.jobs[q])
          then db.jobs[q].(status := Superseded) else db.jobs[q])
  }

  /** An empty string leaves that column unconstrained. */
  datatype JobQuery = JobQuery(persona: string, session: string, ownerScope: string, ownerId: string)

  predicate Matches(query: JobQuery, job: Job)
  {
    && (query.persona == "" || job.persona == query.persona)
    && (query.session == "" || job.session == query.session)
    && (query.ownerScope == "" || job.owner.scope == query.ownerScope)
    && (query.ownerId == "" || job.owner.id == query.ownerId)
  }

  function ClearFailedTx(db: Db, query: JobQuery): Db
  {
    db.(jobs := map q | q in db.jobs && !(db.jobs[q].status.Failed? && Matches(query, db.jobs[q])) :: db.jobs[q])
  }

  function CommitStateEventTx(db: Db, row: MoodRow, event: MoodEvent): Db
  {
    db.(moods := db.moods + [row], events := db.events + [event])
  }

  // ---------------------------------------------------------------- reads

  /** ListJobsByBatch: the rows of a batch in seq order. */
  function ListByBatch(jobs: map<nat, Job>, b: nat, lo: nat, hi: nat): seq<Job>
    decreases hi - lo
  {
    if lo >= hi then []
    else if lo in jobs && jobs[lo].batch == Some(b) then [jobs[lo]] + ListByBatch(jobs, b, lo + 1, hi)
    else ListByBatch(jobs, b, lo + 1, hi)
  }

  /** GetLatestStateByOwner: the owner's row with the greatest updated_at, whatever the insertion order. */
  function Latest(moods: seq<MoodRow>, owner: MoodOwner): (r: Option<MoodRow>)
    ensures r.None? ==> forall m :: m in moods ==> m.owner != owner
    ensures r.Some? ==> r.value in moods && r.value.owner == owner
    ensures r.Some? ==> forall m :: m in moods && m.owner == owner ==> m.stamp <= r.value.stamp
  {
    if moods == [] then None
    else
      var last := moods[|moods| - 1];
      var earlier := Latest(moods[..|moods| - 1], owner);
      if last.owner == owner && (earlier.None? || earlier.value.stamp < last.stamp) then Some(last) else earlier
  }

  function LatestId(moods: seq<MoodRow>, owner: MoodOwner): Option<nat>
  {
    match Latest(moods, owner)
    case None => None
    case Some(row) => Some(row.id)
  }
}
