/**
 * The job tables and the transactions of the durable job worker: claim, recovery of expired leases, heartbeat,
 * completion, infrastructure failure and cancellation, with the per-tenant, per-day execution ledger.
 *
 * Every transaction is one function from the tables to the tables. A transaction that returns an error rolls back,
 * which is the unchanged state. Clock readings are arguments: nothing here assumes that they are ordered.
 */
module JobModel {
  import opened Options
  import opened Events
  import opened Results
  import Outbox

  const MAX_INT64: int := 0x7FFF_FFFF_FFFF_FFFF
  const MAX_UINT32: nat := 0xFFFF_FFFF

  /** An accounting day, counted from the epoch. */
  type Day = nat
  type SourceId = nat
  type RequestHash = nat

  function DayOf(now: Time): Day
  {
    now / DAY
  }

  /** Midnight at the end of an accounting day. */
  function EndOfDay(d: Day): Time
  {
    (d + 1) * DAY
  }

  datatype Policy = Policy(
    maxQueuedJobs: int,
    maxRunningJobs: int,
    maxSourceBytes: int,
    maxRetainedBundles: int,
    dailyExecutionMillis: int,
    maxInfrastructureTries: int,
    maxTimeLimitMillis: int,
    maxMemoryLimitMiB: int)

  const MAX_SOURCE_BYTES: int := 64 * 0x10_0000 - 16

  predicate ValidPolicy(p: Policy)
  {
    && 0 < p.maxRunningJobs <= p.maxQueuedJobs
    && 0 < p.maxSourceBytes <= MAX_SOURCE_BYTES
    && 0 < p.maxRetainedBundles
    && 0 < p.dailyExecutionMillis
    && 0 < p.maxInfrastructureTries <= 10
    && 0 < p.maxTimeLimitMillis
    && 0 < p.maxMemoryLimitMiB
  }

  datatype Tenant = Tenant(active: bool, policy: Policy)

  /** The parts of a bundle manifest that the claim reads. */
  datatype ExecutionLimits = ExecutionLimits(
    timeLimitMillis: int,
    memoryLimitMiB: int,
    checker: Option<CheckerLimits>,
    caseCount: nat)

  datatype CheckerLimits = CheckerLimits(timeLimitMillis: int, memoryLimitMiB: int)

  /** The bounds `Manifest.Validate` puts on those parts. */
  predicate ParsedLimits(l: ExecutionLimits)
  {
    && 0 < l.timeLimitMillis <= 86_400_000
    && 0 < l.memoryLimitMiB <= 2_147_483_647
    && (l.checker.Some? ==>
          0 < l.checker.value.timeLimitMillis <= 86_400_000 && 0 < l.checker.value.memoryLimitMiB <= 2_147_483_647)
    && 0 < l.caseCount <= 10_000
  }

  predicate WithinCeilings(l: ExecutionLimits, maxTime: int, maxMemory: int)
  {
    && 0 < maxTime && 0 < maxMemory
    && 0 < l.timeLimitMillis <= maxTime
    && 0 < l.memoryLimitMiB <= maxMemory
    && (l.checker.Some? ==>
          0 < l.checker.value.timeLimitMillis <= maxTime && 0 < l.checker.value.memoryLimitMiB <= maxMemory)
  }

  /** The reservation of one attempt, or nothing if it does not fit a signed 64-bit integer. */
  function MaximumExecutionMillis(l: ExecutionLimits): (r: Option<nat>)
    ensures r.Some? ==> 0 < r.value <= MAX_INT64
  {
    if l.caseCount == 0 || l.timeLimitMillis <= 0 || l.timeLimitMillis > MAX_INT64 then None
    else if && l.checker.Some?
            && (l.checker.value.timeLimitMillis <= 0 || l.timeLimitMillis > MAX_INT64 - l.checker.value.timeLimitMillis)
    then None
    else
      var perCase := l.timeLimitMillis + if l.checker.Some? then l.checker.value.timeLimitMillis else 0;
      if perCase > MAX_INT64 / l.caseCount then None
      else
        ProductFits(perCase, l.caseCount);
        Some(perCase * l.caseCount)
  }

  lemma ProductFits(x: int, n: nat)
    requires 0 < x && 0 < n && x <= MAX_INT64 / n
    ensures 0 < x * n <= MAX_INT64
  {
  }

  /** No manifest that passed validation is ever refused for its size. */
  lemma ParsedLimitsHaveReservation(l: ExecutionLimits)
    requires ParsedLimits(l)
    ensures
      var perCase := l.timeLimitMillis + if l.checker.Some? then l.checker.value.timeLimitMillis else 0;
      MaximumExecutionMillis(l) == Some(perCase * l.caseCount)
  {
  }

  // ------------------------------------------------------------------ tables

  datatype Lease = Lease(worker: WorkerId, token: Token, until: Time)

  datatype Job = Job(
    tenant: TenantId,
    limits: ExecutionLimits,
    callback: Option<CallbackId>,
    source: SourceId,
    requestHash: RequestHash,
    status: JobStatus,
    attemptNo: nat,
    lease: Option<Lease>,
    nextAttemptAt: Time,
    cancelRequestedAt: Option<Time>,
    result: Option<DurableJobResult>,
    failureCode: Option<string>,
    createdAt: Time,
    startedAt: Option<Time>,
    completedAt: Option<Time>,
    // History: the day whose ledger had no room when the job was last put off to midnight.
    deferredDay: Option<Day>)

  datatype AttemptStatus = AttemptRunning | AttemptSucceeded | AttemptFailed | AttemptCancelled | AttemptExpired

  datatype Attempt = Attempt(
    tenant: TenantId,
    worker: WorkerId,
    token: Option<Token>,
    status: AttemptStatus,
    leaseUntil: Time,
    day: Day,
    reserved: nat,
    consumed: nat,
    startedAt: Time,
    finishedAt: Option<Time>,
    failureCode: Option<string>)

  datatype AttemptKey = AttemptKey(job: JobId, no: nat)
  datatype DayKey = DayKey(tenant: TenantId, day: Day)
  datatype LedgerRow = LedgerRow(reserved: nat, consumed: nat)

  datatype State = State(
    tenants: map<TenantId, Tenant>,
    jobs: map<JobId, Job>,
    attempts: map<AttemptKey, Attempt>,
    ledger: map<DayKey, LedgerRow>,
    outbox: Outbox.Rows,
    nextJobId: JobId,
    // History: the attempts of jobs that retention has deleted.
    retired: map<AttemptKey, Attempt>)

  /** Repository configuration. */
  datatype Config = Config(webhookWindow: nat, webhookMaxAttempts: nat)

  predicate ValidConfig(cfg: Config)
  {
    MINUTE <= cfg.webhookWindow <= 7 * DAY && 1 <= cfg.webhookMaxAttempts <= 100
  }

  datatype WorkerClaim = WorkerClaim(tenant: TenantId, job: JobId, attemptNo: nat, worker: WorkerId, token: Token)

  // ------------------------------------------------------------ daily ledger

  function LedgerAt(ledger: map<DayKey, LedgerRow>, k: DayKey): LedgerRow
  {
    if k in ledger then ledger[k] else LedgerRow(0, 0)
  }

  datatype Reservation =
    | Allowed(ledger: map<DayKey, LedgerRow>)
    | Deferred(ledger: map<DayKey, LedgerRow>)
    | Impossible
    | Refused

  function ReserveDaily(ledger: map<DayKey, LedgerRow>, k: DayKey, dailyLimit: int, cost: int): Reservation
  {
    if dailyLimit <= 0 || cost <= 0 then Refused
    else if cost > dailyLimit then Impossible
    else
      var row := LedgerAt(ledger, k);
      if row.consumed > dailyLimit - cost || row.reserved > dailyLimit - cost - row.consumed
      then Deferred(ledger[k := row])
      else Allowed(ledger[k := row.(reserved := row.reserved + cost)])
  }

  /** All queued jobs of the tenant that wait for the end of day `d` become due now. */
  function WakeJob(job: Job, tenant: TenantId, d: Day, now: Time): Job
  {
    if job.tenant == tenant && job.status == Queued && job.nextAttemptAt == EndOfDay(d)
    then job.(nextAttemptAt := now, deferredDay := None)
    else job
  }

  function Wake(jobs: map<JobId, Job>, tenant: TenantId, d: Day, now: Time): map<JobId, Job>
  {
    map j | j in jobs :: WakeJob(jobs[j], tenant, d, now)
  }

  predicate MeasuredTimes(cases: seq<DurableCaseResult>)
  {
    forall i :: 0 <= i < |cases| ==> cases[i].timeMillis >= 0
  }

  function Charge(reserved: nat, cases: seq<DurableCaseResult>, full: bool): (c: nat)
    requires MeasuredTimes(cases)
    ensures c <= reserved
  {
    if full then reserved else CappedTime(cases, reserved)
  }

  /** Settles the ledger for one running attempt and wakes the jobs its day had put off. */
  function ReleaseReservation(
    s: State, tenant: TenantId, k: AttemptKey, now: Time, cases: seq<DurableCaseResult>, full: bool)
    : Option<(State, nat)>
    requires MeasuredTimes(cases)
  {
    if || k !in s.attempts || s.attempts[k].tenant != tenant
       || s.attempts[k].status != AttemptRunning || s.attempts[k].reserved == 0
    then None
    else
      var a := s.attempts[k];
      var consumed := Charge(a.reserved, cases, full);
      var day := DayKey(tenant, a.day);
      if day !in s.ledger || s.ledger[day].reserved < a.reserved then None
      else
        var row := LedgerRow(s.ledger[day].reserved - a.reserved, s.ledger[day].consumed + consumed);
        Some((s.(ledger := s.ledger[day := row], jobs := Wake(s.jobs, tenant, a.day, now)), consumed))
  }

  function CloseAttempt(a: Attempt, status: AttemptStatus, code: Option<string>, consumed: nat, now: Time): Attempt
  {
    a.(status := status, token := None, finishedAt := Some(now), failureCode := code, reserved := 0,
       consumed := consumed)
  }

  /** An expired attempt gives its whole reservation back. */
  function ExpireAttempt(s: State, tenant: TenantId, k: AttemptKey, now: Time): Option<State>
  {
    match ReleaseReservation(s, tenant, k, now, [], false)
    case None => None
    case Some((s1, _)) =>
      var a := s1.attempts[k];
      Some(s1.(attempts := s1.attempts[k := CloseAttempt(a, AttemptExpired, Some("LEASE_EXPIRED"), a.consumed, now)]))
  }

  predicate AttemptOwned(s: State, c: WorkerClaim)
  {
    var k := AttemptKey(c.job, c.attemptNo);
    && k in s.attempts
    && s.attempts[k].status == AttemptRunning
    && s.attempts[k].worker == c.worker
    && s.attempts[k].token == Some(c.token)
  }

  function FinishAttempt(
    s: State, c: WorkerClaim, status: AttemptStatus, code: Option<string>, consumed: nat, now: Time): Option<State>
  {
    var k := AttemptKey(c.job, c.attemptNo);
    if !AttemptOwned(s, c) then None
    else Some(s.(attempts := s.attempts[k := CloseAttempt(s.attempts[k], status, code, consumed, now)]))
  }

  // ---------------------------------------------------------- terminal events

  /** Announces the terminal state of a job that has a callback. */
  function InsertTerminalEvent(cfg: Config, s: State, j: JobId, now: Time): Option<State>
  {
    if j !in s.jobs then None
    else
      var job := s.jobs[j];
      if job.callback == None then Some(s)
      else
        match EncodeTerminalEvent(now, job.tenant, j, job.status, job.result, job.failureCode)
        case None => None
        case Some(body) =>
          if j !in s.outbox then
            var row := Outbox.NewRow(job.tenant, job.callback.value, body, now, cfg.webhookWindow);
            Some(s.(outbox := s.outbox[j := row]))
          else
            // The unique key found an event of this job: it has to be the very same announcement.
            var row := s.outbox[j];
            var expected := EncodeTerminalEvent(row.createdAt, job.tenant, j, job.status, job.result, job.failureCode);
            if expected == Some(row.body) && row.tenant == job.tenant && row.callback == job.callback.value
            then Some(s)
            else None
  }

  /** Ends a job: the lease is cleared, the row is terminal and the event is inserted. */
  function Terminate(
    cfg: Config, s: State, j: JobId, status: JobStatus, result: Option<DurableJobResult>, code: Option<string>,
    now: Time): Option<State>
    requires j in s.jobs
  {
    var job := s.jobs[j].(status := status, lease := None, result := result, failureCode := code,
                          completedAt := Some(now), deferredDay := None);
    InsertTerminalEvent(cfg, s.(jobs := s.jobs[j := job]), j, now)
  }

  // ------------------------------------------------------------ transactions

  datatype ClaimOutcome = Claimed(claim: WorkerClaim) | Retry | NotClaimable | Unavailable

  function Committed(s: State, t: Option<State>, outcome: ClaimOutcome): (State, ClaimOutcome)
  {
    match t case None => (s, Unavailable) case Some(next) => (next, outcome)
  }

  predicate Claimable(job: Job, active: bool, now: Time)
  {
    || (active && job.status == Queued && job.nextAttemptAt <= now)
    || (job.status == Running && job.lease.Some? && job.lease.value.until <= now)
  }

  function RunningJobs(jobs: map<JobId, Job>, t: TenantId): set<JobId>
  {
    set j | j in jobs && jobs[j].tenant == t && jobs[j].status == Running
  }

  /** The new attempt: the job is running under a fresh lease and its reservation is booked to today. */
  function Grant(
    s: State, j: JobId, cost: nat, worker: WorkerId, token: Token, duration: nat, now: Time): (State, ClaimOutcome)
    requires j in s.jobs
  {
    var job := s.jobs[j];
    if job.attemptNo >= MAX_UINT32 then (s, Unavailable)
    else
      var no := job.attemptNo + 1;
      var until := now + duration;
      var started := if job.startedAt.Some? then job.startedAt else Some(now);
      var job' := job.(status := Running, attemptNo := no, lease := Some(Lease(worker, token, until)),
                       startedAt := started, failureCode := None, deferredDay := None);
      var attempt := Attempt(
        job.tenant, worker, Some(token), AttemptRunning, until, DayOf(now), cost, 0, now, None, None);
      (s.(jobs := s.jobs[j := job'], attempts := s.attempts[AttemptKey(j, no) := attempt]),
       Claimed(WorkerClaim(job.tenant, j, no, worker, token)))
  }

  function Defer(s: State, j: JobId, now: Time): State
    requires j in s.jobs
  {
    var d := DayOf(now);
    s.(jobs := s.jobs[j := s.jobs[j].(status := Queued, lease := None, nextAttemptAt := EndOfDay(d),
                                      deferredDay := Some(d))])
  }

  /** A queued or recovered job asks for its reservation; `s0` is the state to roll back to. */
  function ReserveAndGrant(
    cfg: Config, s0: State, s: State, j: JobId, dailyLimit: int, cost: nat, worker: WorkerId, token: Token,
    duration: nat, now: Time)
    : (State, ClaimOutcome)
    requires j in s.jobs
  {
    match ReserveDaily(s.ledger, DayKey(s.jobs[j].tenant, DayOf(now)), dailyLimit, cost)
    case Refused => (s0, Unavailable)
    case Impossible =>
      Committed(s0, Terminate(cfg, s, j, Failed, s.jobs[j].result, Some("DAILY_EXECUTION_LIMIT_TOO_LOW"), now), Retry)
    case Deferred(ledger) => (Defer(s.(ledger := ledger), j, now), Retry)
    case Allowed(ledger) =>
      var r := Grant(s.(ledger := ledger), j, cost, worker, token, duration, now);
      if r.1.Claimed? then r else (s0, Unavailable)
  }

  /** Recovery of a job whose lease ran out. */
  function RecoverExpired(
    cfg: Config, s: State, j: JobId, tenant: Tenant, cost: nat, worker: WorkerId, token: Token, duration: nat,
    now: Time)
    : (State, ClaimOutcome)
    requires j in s.jobs
  {
    var job := s.jobs[j];
    match ExpireAttempt(s, job.tenant, AttemptKey(j, job.attemptNo), now)
    case None => (s, Unavailable)
    case Some(s1) =>
      if !tenant.active then
        Committed(s, Terminate(cfg, s1, j, Failed, job.result, Some("TENANT_DISABLED"), now), Retry)
      else if job.cancelRequestedAt.Some? then
        Committed(s, Terminate(cfg, s1, j, Cancelled, None, None, now), Retry)
      else if job.attemptNo >= tenant.policy.maxInfrastructureTries then
        Committed(s, Terminate(cfg, s1, j, Failed, job.result, Some("LEASE_EXPIRED"), now), Retry)
      else ReserveAndGrant(cfg, s, s1, j, tenant.policy.dailyExecutionMillis, cost, worker, token, duration, now)
  }

  /** One claim transaction on the job it has locked. */
  function ClaimOne(
    cfg: Config, s: State, j: JobId, worker: WorkerId, token: Token, duration: nat, now: Time): (State, ClaimOutcome)
  {
    if j !in s.jobs || s.jobs[j].tenant !in s.tenants then (s, NotClaimable)
    else
      var job := s.jobs[j];
      var tenant := s.tenants[job.tenant];
      if tenant.active && !ValidPolicy(tenant.policy) then (s, Unavailable)
      else if !Claimable(job, tenant.active, now) then (s, NotClaimable)
      else if !ParsedLimits(job.limits) then (s, Unavailable)
      else if && tenant.active
              && !WithinCeilings(job.limits, tenant.policy.maxTimeLimitMillis, tenant.policy.maxMemoryLimitMiB)
      then (s, Unavailable)
      else
        match MaximumExecutionMillis(job.limits)
        case None => (s, Unavailable)
        case Some(cost) =>
          if job.status == Running then RecoverExpired(cfg, s, j, tenant, cost, worker, token, duration, now)
          else if |RunningJobs(s.jobs, job.tenant)| >= tenant.policy.maxRunningJobs then (s, NotClaimable)
          else ReserveAndGrant(cfg, s, s, j, tenant.policy.dailyExecutionMillis, cost, worker, token, duration, now)
  }

  /** The fence of every worker transaction: status, attempt number, worker, token and an unexpired lease. */
  predicate ActiveClaim(s: State, c: WorkerClaim, now: Time)
  {
    && c.job in s.jobs
    && s.jobs[c.job].status == Running
    && s.jobs[c.job].attemptNo == c.attemptNo
    && s.jobs[c.job].lease.Some?
    && s.jobs[c.job].lease.value.worker == c.worker
    && s.jobs[c.job].lease.value.token == c.token
    && now < s.jobs[c.job].lease.value.until
  }

  datatype WorkOutcome = Done | Stale | Rejected | WorkUnavailable

  const MAX_LEASE: nat := 15 * MINUTE

  function HeartbeatTx(s: State, c: WorkerClaim, duration: nat, now: Time): (State, WorkOutcome)
  {
    if duration == 0 || duration > MAX_LEASE || !ActiveClaim(s, c, now) || !AttemptOwned(s, c) then (s, Stale)
    else
      var until := now + duration;
      var k := AttemptKey(c.job, c.attemptNo);
      var job := s.jobs[c.job];
      (s.(jobs := s.jobs[c.job := job.(lease := Some(Lease(c.worker, c.token, until)))],
          attempts := s.attempts[k := s.attempts[k].(leaseUntil := until)]), Done)
  }

  function SettleClaim(
    cfg: Config, s0: State, s: State, c: WorkerClaim, cases: seq<DurableCaseResult>, full: bool,
    status: AttemptStatus, code: Option<string>, announce: bool, now: Time): (State, WorkOutcome)
    requires MeasuredTimes(cases)
  {
    match ReleaseReservation(s, c.tenant, AttemptKey(c.job, c.attemptNo), now, cases, full)
    case None => (s0, WorkUnavailable)
    case Some((s1, consumed)) =>
      match FinishAttempt(s1, c, status, code, consumed, now)
      case None => (s0, Stale)
      case Some(s2) =>
        if !announce then (s2, Done)
        else
          match InsertTerminalEvent(cfg, s2, c.job, now)
          case None => (s0, WorkUnavailable)
          case Some(s3) => (s3, Done)
  }

  /** Completion under the fence; a recorded cancellation discards the result. */
  function CompleteTx(
    cfg: Config, s: State, c: WorkerClaim, result: DurableJobResult, now: Time, lockNow: Time): (State, WorkOutcome)
  {
    if !ValidResult(result) then (s, Rejected)
    else if !ActiveClaim(s, c, lockNow) then (s, Stale)
    else
      var job := s.jobs[c.job];
      var cancelled := job.cancelRequestedAt.Some?;
      var job' := job.(status := if cancelled then Cancelled else Succeeded,
                       result := if cancelled then None else Some(result),
                       failureCode := None, completedAt := Some(now), lease := None, deferredDay := None);
      var full := |result.cases| == 0 && (cancelled || result.compileStatus == "FAILED");
      SettleClaim(cfg, s, s.(jobs := s.jobs[c.job := job']), c, result.cases, full,
                  if cancelled then AttemptCancelled else AttemptSucceeded, None, true, now)
  }

  datatype InfrastructureFailure = InfrastructureFailure(
    code: string, retryDelay: int, chargeFull: bool, permanent: bool)

  datatype FailureDisposition = Requeued | TerminalFailure | CancelledFailure

  predicate ValidFailure(f: InfrastructureFailure)
  {
    ValidFailureCode(f.code) && 0 <= f.retryDelay <= HOUR
  }

  function Disposition(job: Job, c: WorkerClaim, f: InfrastructureFailure, tries: int): FailureDisposition
  {
    if job.cancelRequestedAt.Some? then CancelledFailure
    else if !f.permanent && c.attemptNo < tries then Requeued
    else TerminalFailure
  }

  /** The job row after an infrastructure failure. */
  function FailedJob(job: Job, d: FailureDisposition, f: InfrastructureFailure, now: Time): Job
    requires ValidFailure(f)
  {
    match d
    case CancelledFailure =>
      job.(
        status := Cancelled, nextAttemptAt := now, failureCode := None, completedAt := Some(now), lease := None,
        deferredDay := None)
    case Requeued =>
      job.(
        status := Queued, nextAttemptAt := now + f.retryDelay, failureCode := None, completedAt := None, lease := None,
        deferredDay := None)
    case TerminalFailure =>
      job.(
        status := Failed, nextAttemptAt := now, failureCode := Some(f.code), completedAt := Some(now), lease := None,
        deferredDay := None)
  }

  function FailTx(
    cfg: Config, s: State, c: WorkerClaim, f: InfrastructureFailure, now: Time, lockNow: Time): (State, WorkOutcome)
  {
    if !ValidFailure(f) then (s, Rejected)
    else if !ActiveClaim(s, c, lockNow) || s.jobs[c.job].tenant !in s.tenants then (s, Stale)
    else
      var policy := s.tenants[s.jobs[c.job].tenant].policy;
      if !ValidPolicy(policy) then (s, WorkUnavailable)
      else
        var d := Disposition(s.jobs[c.job], c, f, policy.maxInfrastructureTries);
        var job' := FailedJob(s.jobs[c.job], d, f, now);
        SettleClaim(cfg, s, s.(jobs := s.jobs[c.job := job']), c, [], f.chargeFull,
                    if d == CancelledFailure then AttemptCancelled else AttemptFailed,
                    if d == CancelledFailure then None else Some(f.code),
                    d != Requeued, now)
  }

  datatype CancelOutcome = CancelAccepted | NotFound | CancelUnavailable

  function CancelTx(cfg: Config, s: State, tenant: TenantId, j: JobId, now: Time): (State, CancelOutcome)
  {
    if tenant !in s.tenants || j !in s.jobs || s.jobs[j].tenant != tenant then (s, NotFound)
    else
      var job := s.jobs[j];
      match job.status
      case Queued =>
        (match InsertTerminalEvent(cfg, s.(jobs := s.jobs[j := job.(status := Cancelled, cancelRequestedAt := Some(now),
                 completedAt := Some(now), lease := None, deferredDay := None)]), j, now)
         case None => (s, CancelUnavailable)
         case Some(s1) => (s1, CancelAccepted))
      case Running =>
        if job.cancelRequestedAt.Some? then (s, CancelAccepted)
        else (s.(jobs := s.jobs[j := job.(cancelRequestedAt := Some(now))]), CancelAccepted)
      case _ => (s, CancelAccepted)
  }

  function QueuedJobs(jobs: map<JobId, Job>, t: TenantId): set<JobId>
  {
    set j | j in jobs && jobs[j].tenant == t && jobs[j].status == Queued
  }

  function NewJob(
    tenant: TenantId, limits: ExecutionLimits, callback: Option<CallbackId>, source: SourceId, hash: RequestHash,
    now: Time): Job
  {
    Job(tenant, limits, callback, source, hash, Queued, 0, None, now, None, None, None, now, None, None, None)
  }

  datatype EnqueueOutcome = Enqueued(job: JobId) | QueueFull | TenantUnavailable

  /** The job part of the submission transaction. */
  function EnqueueTx(
    s: State, tenant: TenantId, limits: ExecutionLimits, callback: Option<CallbackId>, source: SourceId,
    hash: RequestHash, now: Time)
    : (State, EnqueueOutcome)
  {
    if tenant !in s.tenants || !s.tenants[tenant].active || !ValidPolicy(s.tenants[tenant].policy)
    then (s, TenantUnavailable)
    else if |QueuedJobs(s.jobs, tenant)| >= s.tenants[tenant].policy.maxQueuedJobs then (s, QueueFull)
    else
      (s.(jobs := s.jobs[s.nextJobId := NewJob(tenant, limits, callback, source, hash, now)],
          nextJobId := s.nextJobId + 1),
       Enqueued(s.nextJobId))
  }

  /** The job part of the retention transaction: a terminal job without an event goes, with its attempts. */
  predicate Retirable(s: State, j: JobId)
  {
    j in s.jobs && Terminal(s.jobs[j].status) && j !in s.outbox
  }

  function RetireTx(s: State, j: JobId): State
  {
    if !Retirable(s, j) then s
    else
      s.(jobs := s.jobs - {j},
         attempts := map k | k in s.attempts && k.job != j :: s.attempts[k],
         retired := s.retired + map k | k in s.attempts && k.job == j :: s.attempts[k])
  }

  // -------------------------------------------------------------------- runs

  datatype Step =
    | EnqueueStep(
      tenant: TenantId, limits: ExecutionLimits, callback: Option<CallbackId>, source: SourceId, hash: RequestHash,
      now: Time)
    | ClaimStep(job: JobId, worker: WorkerId, token: Token, duration: nat, now: Time)
    | HeartbeatStep(claim: WorkerClaim, duration: nat, now: Time)
    | CompleteStep(claim: WorkerClaim, result: DurableJobResult, now: Time, lockNow: Time)
    | FailStep(claim: WorkerClaim, failure: InfrastructureFailure, now: Time, lockNow: Time)
    | CancelStep(tenant: TenantId, job: JobId, now: Time)
    | RetireStep(job: JobId)
    | DeliverStep(delivery: Outbox.Step)
    | TenantStep(tenant: TenantId, row: Tenant)

  function Apply(cfg: Config, s: State, step: Step): State
  {
    match step
    case EnqueueStep(tenant, limits, callback, source, hash, now) =>
      EnqueueTx(s, tenant, limits, callback, source, hash, now).0
    case ClaimStep(job, worker, token, duration, now) => ClaimOne(cfg, s, job, worker, token, duration, now).0
    case HeartbeatStep(claim, duration, now) => HeartbeatTx(s, claim, duration, now).0
    case CompleteStep(claim, result, now, lockNow) => CompleteTx(cfg, s, claim, result, now, lockNow).0
    case FailStep(claim, failure, now, lockNow) => FailTx(cfg, s, claim, failure, now, lockNow).0
    case CancelStep(tenant, job, now) => CancelTx(cfg, s, tenant, job, now).0
    case RetireStep(job) => RetireTx(s, job)
    case DeliverStep(delivery) => s.(outbox := Outbox.Apply(s.outbox, delivery, cfg.webhookMaxAttempts))
    case TenantStep(tenant, row) => s.(tenants := s.tenants[tenant := row])
  }

  function Run(cfg: Config, s: State, steps: seq<Step>): State
    decreases |steps|
  {
    if steps == [] then s else Run(cfg, Apply(cfg, s, steps[0]), steps[1..])
  }

  function Empty(): State
  {
    State(map[], map[], map[], map[], map[], 0, map[])
  }
}
