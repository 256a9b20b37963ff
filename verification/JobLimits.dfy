/**
 * What a tenant's policy guarantees, as long as it stays the same: attempts, running jobs, live jobs and the execution
 * time of every day stay within their limits, and a job that waits for tomorrow really does not fit today.
 */
module JobLimits {
  import opened Options
  import opened Events
  import opened Results
  import opened JobModel
  import opened JobInvariants
  import opened JobSteps
  import opened JobRuns
  import opened JobTheorems

  function DayTotal(s: State, t: TenantId, d: Day): nat
  {
    var row := LedgerAt(s.ledger, DayKey(t, d));
    row.reserved + row.consumed
  }

  function LiveJobs(jobs: map<JobId, Job>, t: TenantId): set<JobId>
  {
    set j | j in jobs && jobs[j].tenant == t && !Terminal(jobs[j].status)
  }

  lemma LiveIsQueuedOrRunning(jobs: map<JobId, Job>, t: TenantId)
    ensures |LiveJobs(jobs, t)| == |QueuedJobs(jobs, t)| + |RunningJobs(jobs, t)|
  {
    assert LiveJobs(jobs, t) == QueuedJobs(jobs, t) + RunningJobs(jobs, t);
    assert QueuedJobs(jobs, t) !! RunningJobs(jobs, t);
  }

  /** Attempts never exceed the tries, and a queued job always has one left. */
  predicate JobWithinTries(job: Job, p: Policy)
  {
    && job.attemptNo <= p.maxInfrastructureTries
    && (job.status == Queued ==> job.attemptNo < p.maxInfrastructureTries)
  }

  /** The job's reservation does not fit what is left of the day it was put off for. */
  predicate TrulyDeferred(s: State, job: Job, p: Policy)
  {
    job.deferredDay.Some? ==>
      && MaximumExecutionMillis(job.limits).Some?
      && MaximumExecutionMillis(job.limits).value + DayTotal(s, job.tenant, job.deferredDay.value) >
         p.dailyExecutionMillis
  }

  ghost predicate RowLimits(s: State, t: TenantId, p: Policy)
  {
    && (t in s.tenants ==> s.tenants[t].policy == p)
    && (forall j :: j in s.jobs && s.jobs[j].tenant == t ==>
          JobWithinTries(s.jobs[j], p) && TrulyDeferred(s, s.jobs[j], p))
    && (forall d :: DayTotal(s, t, d) <= p.dailyExecutionMillis)
  }

  predicate CountLimits(s: State, t: TenantId, p: Policy)
  {
    && |RunningJobs(s.jobs, t)| <= p.maxRunningJobs
    && |LiveJobs(s.jobs, t)| <= p.maxQueuedJobs + p.maxRunningJobs
  }

  ghost predicate Limits(s: State, t: TenantId, p: Policy)
  {
    RowLimits(s, t, p) && CountLimits(s, t, p)
  }

  lemma SubsetIsSmaller<T>(a: set<T>, b: set<T>)
    requires a <= b
    ensures |a| <= |b|
  {
    assert b == a + (b - a);
  }

  /** The counts only depend on tenant and status. */
  lemma CountsShrink(s: State, s': State, t: TenantId, p: Policy)
    requires CountLimits(s, t, p)
    requires RunningJobs(s'.jobs, t) <= RunningJobs(s.jobs, t) && LiveJobs(s'.jobs, t) <= LiveJobs(s.jobs, t)
    ensures CountLimits(s', t, p)
  {
    SubsetIsSmaller(RunningJobs(s'.jobs, t), RunningJobs(s.jobs, t));
    SubsetIsSmaller(LiveJobs(s'.jobs, t), LiveJobs(s.jobs, t));
  }

  // -------------------------------------------------- the parts of a transaction

  /** Waking jobs changes neither tenants nor states. */
  lemma WokenCounts(jobs: map<JobId, Job>, tenant: TenantId, day: Day, now: Time, t: TenantId)
    ensures RunningJobs(Wake(jobs, tenant, day, now), t) == RunningJobs(jobs, t)
    ensures LiveJobs(Wake(jobs, tenant, day, now), t) == LiveJobs(jobs, t)
  {
  }

  /** A lower total of one day, whose waiting jobs are woken. */
  lemma SettledKeepsRowLimits(
    s: State, tenant: TenantId, day: Day, now: Time, t: TenantId, p: Policy, s': State)
    requires JobRowsOk(s) && RowLimits(s, t, p)
    requires s'.tenants == s.tenants && s'.jobs == Wake(s.jobs, tenant, day, now)
    requires DayTotal(s', tenant, day) <= DayTotal(s, tenant, day)
    requires forall k :: k != DayKey(tenant, day) ==> LedgerAt(s'.ledger, k) == LedgerAt(s.ledger, k)
    ensures RowLimits(s', t, p)
  {
    assert forall d :: DayKey(t, d) != DayKey(tenant, day) ==> DayTotal(s', t, d) == DayTotal(s, t, d);
    forall j | j in s'.jobs && s'.jobs[j].tenant == t
      ensures JobWithinTries(s'.jobs[j], p) && TrulyDeferred(s', s'.jobs[j], p)
    {
      assert JobFields(s.jobs[j]) && JobWithinTries(s.jobs[j], p) && TrulyDeferred(s, s.jobs[j], p);
    }
  }

  /** Settling an attempt lowers its day's total, and every job that waited for that day is due again. */
  lemma SettledKeepsLimits(
    cfg: Config, s: State, k: AttemptKey, closed: Attempt, now: Time, t: TenantId, p: Policy, s': State)
    requires Inv(cfg, s) && Limits(s, t, p) && k in s.attempts && s.attempts[k].status == AttemptRunning
    requires s' == Settled(s, k, closed, now) && closed.consumed <= s.attempts[k].reserved
    ensures Limits(s', t, p)
  {
    LedgerCoversAttempt(cfg, s, k);
    var a := s.attempts[k];
    SettledKeepsRowLimits(s, a.tenant, a.day, now, t, p, s');
    WokenCounts(s.jobs, a.tenant, a.day, now, t);
    CountsShrink(s, s', t, p);
  }

  /** Taking a job out of the running ones. */
  lemma RowKeepsLimits(s: State, j: JobId, row: Job, t: TenantId, p: Policy, s': State)
    requires Limits(s, t, p) && j in s.jobs && row.tenant == s.jobs[j].tenant && !Terminal(s.jobs[j].status)
    requires s'.jobs == s.jobs[j := row] && s'.ledger == s.ledger && s'.tenants == s.tenants
    requires row.attemptNo == s.jobs[j].attemptNo && row.status != Running
    requires row.tenant == t && row.status == Queued ==> row.attemptNo < p.maxInfrastructureTries
    requires row.tenant == t ==> TrulyDeferred(s, row, p)
    ensures Limits(s', t, p)
  {
    assert forall d :: DayTotal(s', t, d) == DayTotal(s, t, d);
    forall i | i in s'.jobs && s'.jobs[i].tenant == t
      ensures JobWithinTries(s'.jobs[i], p) && TrulyDeferred(s', s'.jobs[i], p)
    {
      assert JobWithinTries(s.jobs[i], p) && (i != j ==> TrulyDeferred(s, s.jobs[i], p));
    }
    CountsShrink(s, s', t, p);
  }

  /** Only tenants, jobs and the ledger matter. */
  lemma SameRowsKeepLimits(s: State, t: TenantId, p: Policy, s': State)
    requires Limits(s, t, p) && s'.jobs == s.jobs && s'.ledger == s.ledger && s'.tenants == s.tenants
    ensures Limits(s', t, p)
  {
    assert forall d :: DayTotal(s', t, d) == DayTotal(s, t, d);
    forall i | i in s'.jobs && s'.jobs[i].tenant == t
      ensures JobWithinTries(s'.jobs[i], p) && TrulyDeferred(s', s'.jobs[i], p)
    {
      assert JobWithinTries(s.jobs[i], p) && TrulyDeferred(s, s.jobs[i], p);
    }
  }

  lemma EmptyRowKeepsLimits(s: State, k: DayKey, t: TenantId, p: Policy, s': State)
    requires Limits(s, t, p) && s' == s.(ledger := s.ledger[k := LedgerAt(s.ledger, k)])
    ensures Limits(s', t, p)
    ensures forall u, d :: DayTotal(s', u, d) == DayTotal(s, u, d)
  {
    assert forall u, d :: DayTotal(s', u, d) == DayTotal(s, u, d);
    forall i | i in s'.jobs && s'.jobs[i].tenant == t
      ensures JobWithinTries(s'.jobs[i], p) && TrulyDeferred(s', s'.jobs[i], p)
    {
      assert JobWithinTries(s.jobs[i], p) && TrulyDeferred(s, s.jobs[i], p);
    }
  }

  /** A reservation only raises a day's total, so whoever did not fit still does not. */
  lemma GrantKeepsRowLimits(s: State, j: JobId, row: Job, cost: nat, day: Day, t: TenantId, p: Policy, s': State)
    requires RowLimits(s, t, p) && j in s.jobs && row.tenant == s.jobs[j].tenant && row.deferredDay == None
    requires
      var k := DayKey(row.tenant, day);
      s'.ledger == s.ledger[k := LedgerAt(s.ledger, k).(reserved := LedgerAt(s.ledger, k).reserved + cost)]
    requires s'.jobs == s.jobs[j := row] && s'.tenants == s.tenants
    requires row.tenant == t ==> JobWithinTries(row, p) && DayTotal(s, t, day) + cost <= p.dailyExecutionMillis
    ensures RowLimits(s', t, p)
  {
    assert forall d :: DayTotal(s, t, d) <= DayTotal(s', t, d);
    forall i | i in s'.jobs && s'.jobs[i].tenant == t
      ensures JobWithinTries(s'.jobs[i], p) && TrulyDeferred(s', s'.jobs[i], p)
    {
      assert i != j ==> JobWithinTries(s.jobs[i], p) && TrulyDeferred(s, s.jobs[i], p);
    }
  }

  lemma GrantKeepsCounts(s: State, j: JobId, row: Job, t: TenantId, p: Policy, s': State)
    requires CountLimits(s, t, p) && j in s.jobs && row.tenant == s.jobs[j].tenant && row.status == Running
    requires !Terminal(s.jobs[j].status)
    requires s'.jobs == s.jobs[j := row]
    requires row.tenant == t ==> s.jobs[j].status == Running || |RunningJobs(s.jobs, t)| < p.maxRunningJobs
    ensures CountLimits(s', t, p)
  {
    assert LiveJobs(s'.jobs, t) == LiveJobs(s.jobs, t);
    if row.tenant == t {
      assert RunningJobs(s'.jobs, t) == RunningJobs(s.jobs, t) + {j};
      if s.jobs[j].status == Running {
        assert RunningJobs(s'.jobs, t) == RunningJobs(s.jobs, t);
      }
    } else {
      assert RunningJobs(s'.jobs, t) == RunningJobs(s.jobs, t);
    }
  }

  /** What a claim may assume about the job it has locked when it asks for a reservation. */
  predicate MayReserve(s: State, j: JobId, t: TenantId, p: Policy, dailyLimit: int, cost: nat)
    requires j in s.jobs
  {
    && s.jobs[j].cancelRequestedAt == None && MaximumExecutionMillis(s.jobs[j].limits) == Some(cost)
    && (s.jobs[j].tenant == t ==>
          && dailyLimit == p.dailyExecutionMillis
          && s.jobs[j].attemptNo < p.maxInfrastructureTries
          && (s.jobs[j].status == Running || |RunningJobs(s.jobs, t)| < p.maxRunningJobs))
  }

  /** A job that does not fit is put off, truly. */
  lemma DeferKeepsLimits(
    s: State, j: JobId, dailyLimit: int, cost: nat, now: Time, t: TenantId, p: Policy, s': State)
    requires Limits(s, t, p) && j in s.jobs && !Terminal(s.jobs[j].status)
    requires MayReserve(s, j, t, p, dailyLimit, cost)
    requires
      var r := ReserveDaily(s.ledger, DayKey(s.jobs[j].tenant, DayOf(now)), dailyLimit, cost);
      r.Deferred? && s' == Defer(s.(ledger := r.ledger), j, now)
    ensures Limits(s', t, p)
  {
    var k := DayKey(s.jobs[j].tenant, DayOf(now));
    var s1 := s.(ledger := s'.ledger);
    EmptyRowKeepsLimits(s, k, t, p, s1);
    RowKeepsLimits(s1, j, s'.jobs[j], t, p, s');
  }

  /** A grant stays within the day, the tries and the running jobs. */
  lemma GrantKeepsLimits(
    s: State, j: JobId, dailyLimit: int, cost: nat, worker: WorkerId, token: Token, duration: nat, now: Time,
    t: TenantId, p: Policy, s': State)
    requires Limits(s, t, p) && j in s.jobs && !Terminal(s.jobs[j].status)
    requires MayReserve(s, j, t, p, dailyLimit, cost)
    requires
      var r := ReserveDaily(s.ledger, DayKey(s.jobs[j].tenant, DayOf(now)), dailyLimit, cost);
      && r.Allowed?
      && var g := Grant(s.(ledger := r.ledger), j, cost, worker, token, duration, now);
      g.1.Claimed? && s' == g.0
    ensures Limits(s', t, p)
  {
    GrantKeepsRowLimits(s, j, s'.jobs[j], cost, DayOf(now), t, p, s');
    GrantKeepsCounts(s, j, s'.jobs[j], t, p, s');
  }

  lemma ReserveKeepsLimits(
    cfg: Config, s0: State, s: State, j: JobId, dailyLimit: int, cost: nat, worker: WorkerId, token: Token,
    duration: nat, now: Time,
    t: TenantId, p: Policy)
    requires ValidConfig(cfg) && Detached(cfg, s, j) && Limits(s0, t, p) && Limits(s, t, p)
    requires MayReserve(s, j, t, p, dailyLimit, cost)
    ensures Limits(ReserveAndGrant(cfg, s0, s, j, dailyLimit, cost, worker, token, duration, now).0, t, p)
  {
    var s' := ReserveAndGrant(cfg, s0, s, j, dailyLimit, cost, worker, token, duration, now).0;
    assert JobFields(s.jobs[j]);
    match ReserveDaily(s.ledger, DayKey(s.jobs[j].tenant, DayOf(now)), dailyLimit, cost)
    case Refused =>
    case Impossible =>
      FailureCodesAreValid();
      TerminateKeepsLimits(cfg, s, j, Failed, Some("DAILY_EXECUTION_LIMIT_TOO_LOW"), now, t, p);
    case Deferred(ledger) => DeferKeepsLimits(s, j, dailyLimit, cost, now, t, p, s');
    case Allowed(ledger) =>
      if s' != s0 {
        GrantKeepsLimits(s, j, dailyLimit, cost, worker, token, duration, now, t, p, s');
      }
  }

  lemma TerminateKeepsLimits(
    cfg: Config, s: State, j: JobId, status: JobStatus, code: Option<string>, now: Time, t: TenantId, p: Policy)
    requires ValidConfig(cfg) && Detached(cfg, s, j) && Limits(s, t, p)
    requires (status == Failed && code.Some? && ValidFailureCode(code.value))
          || (status == Cancelled && code == None && s.jobs[j].cancelRequestedAt.Some?)
    ensures
      var r := Terminate(cfg, s, j, status, None, code, now);
      r.Some? && Limits(r.value, t, p)
  {
    var s' := TerminateEffect(cfg, s, j, status, code, now);
    RowKeepsLimits(s, j, s'.jobs[j], t, p, s');
  }

  // ---------------------------------------------------------- the transactions

  lemma RecoverKeepsLimits(
    cfg: Config, s: State, j: JobId, tenant: Tenant, cost: nat, worker: WorkerId, token: Token, duration: nat,
    now: Time, t: TenantId, p: Policy)
    requires ValidConfig(cfg) && Inv(cfg, s) && j in s.jobs && s.jobs[j].status == Running
    requires MaximumExecutionMillis(s.jobs[j].limits) == Some(cost)
    requires Limits(s, t, p) && (s.jobs[j].tenant == t ==> tenant.policy == p)
    ensures Limits(RecoverExpired(cfg, s, j, tenant, cost, worker, token, duration, now).0, t, p)
  {
    var s1 := ExpireEffect(cfg, s, j, now);
    ExpireKeepsLimits(cfg, s, j, now, s1, t, p);
    var tries := tenant.policy.maxInfrastructureTries;
    if !tenant.active || s.jobs[j].cancelRequestedAt.Some? || s.jobs[j].attemptNo >= tries {
      RecoveryEndKeepsLimits(cfg, s, s1, j, tenant, cost, worker, token, duration, now, t, p);
    } else {
      ReserveKeepsLimits(cfg, s, s1, j, tenant.policy.dailyExecutionMillis, cost, worker, token, duration, now, t, p);
    }
  }

  /** The recoveries that end the job. */
  lemma RecoveryEndKeepsLimits(
    cfg: Config, s: State, s1: State, j: JobId, tenant: Tenant, cost: nat, worker: WorkerId, token: Token,
    duration: nat, now: Time, t: TenantId, p: Policy)
    requires ValidConfig(cfg) && JobRowsOk(s) && j in s.jobs && Detached(cfg, s1, j) && Limits(s1, t, p)
    requires s1.jobs[j] == s.jobs[j] && s.jobs[j].status == Running
    requires ExpireAttempt(s, s.jobs[j].tenant, AttemptKey(j, s.jobs[j].attemptNo), now) == Some(s1)
    requires
      || !tenant.active || s.jobs[j].cancelRequestedAt.Some?
      || s.jobs[j].attemptNo >= tenant.policy.maxInfrastructureTries
    ensures Limits(RecoverExpired(cfg, s, j, tenant, cost, worker, token, duration, now).0, t, p)
  {
    assert JobFields(s.jobs[j]);
    FailureCodesAreValid();
    RecoveryEndUnfolds(cfg, s, s1, j, tenant, cost, worker, token, duration, now);
    var (status, code) := RecoveryEnd(s.jobs[j], tenant);
    TerminateKeepsLimits(cfg, s1, j, status, code, now, t, p);
  }

  lemma ExpireKeepsLimits(cfg: Config, s: State, j: JobId, now: Time, s1: State, t: TenantId, p: Policy)
    requires Inv(cfg, s) && j in s.jobs && s.jobs[j].status == Running && Limits(s, t, p)
    requires ExpireAttempt(s, s.jobs[j].tenant, AttemptKey(j, s.jobs[j].attemptNo), now) == Some(s1)
    ensures Limits(s1, t, p)
  {
    var k := AttemptKey(j, s.jobs[j].attemptNo);
    assert HasRunningAttempt(s, j) && AttemptOk(s, k);
    var closed := CloseAttempt(s.attempts[k], AttemptExpired, Some("LEASE_EXPIRED"), 0, now);
    LedgerCoversAttempt(cfg, s, k);
    ExpireUnfolds(s, k, now);
    SettledKeepsLimits(cfg, s, k, closed, now, t, p, s1);
  }

  lemma ClaimKeepsLimits(
    cfg: Config, s: State, j: JobId, worker: WorkerId, token: Token, duration: nat, now: Time, t: TenantId, p: Policy)
    requires ValidConfig(cfg) && Inv(cfg, s) && Limits(s, t, p)
    ensures Limits(ClaimOne(cfg, s, j, worker, token, duration, now).0, t, p)
  {
    var s' := ClaimOne(cfg, s, j, worker, token, duration, now).0;
    if s' != s {
      var cost := MaximumExecutionMillis(s.jobs[j].limits).value;
      var tenant := s.tenants[s.jobs[j].tenant];
      assert JobFields(s.jobs[j]);
      if s.jobs[j].status == Running {
        RecoverKeepsLimits(cfg, s, j, tenant, cost, worker, token, duration, now, t, p);
      } else {
        QueuedJobIsDetached(cfg, s, j);
        assert s.jobs[j].tenant == t ==> JobWithinTries(s.jobs[j], p);
        ReserveKeepsLimits(cfg, s, s, j, tenant.policy.dailyExecutionMillis, cost, worker, token, duration, now, t, p);
      }
    }
  }

  lemma SettlementKeepsLimits(
    cfg: Config, s: State, mid: State, s': State, c: WorkerClaim, row: Job, charge: nat, status: AttemptStatus,
    code: Option<string>, now: Time,
    t: TenantId, p: Policy)
    requires Inv(cfg, s) && Limits(s, t, p) && c.job in s.jobs && s.jobs[c.job].status == Running && AttemptOwned(s, c)
    requires charge <= s.attempts[AttemptKey(c.job, c.attemptNo)].reserved
    requires SettledBy(s, mid, c, row, charge, status, code, now)
    requires row.tenant == s.jobs[c.job].tenant && row.attemptNo == s.jobs[c.job].attemptNo && row.status != Running
    requires row.deferredDay == None
    requires row.tenant == t && row.status == Queued ==> row.attemptNo < p.maxInfrastructureTries
    requires s'.jobs == mid.jobs && s'.ledger == mid.ledger && s'.tenants == s.tenants
    ensures Limits(s', t, p)
  {
    var k := AttemptKey(c.job, c.attemptNo);
    var a := s.attempts[k];
    var base := Settled(s, k, CloseAttempt(a, status, code, charge, now), now);
    SettledKeepsLimits(cfg, s, k, CloseAttempt(a, status, code, charge, now), now, t, p, base);
    RowKeepsLimits(base, c.job, WakeJob(row, a.tenant, a.day, now), t, p, s');
  }

  lemma CompleteKeepsLimits(
    cfg: Config, s: State, c: WorkerClaim, result: DurableJobResult, now: Time, lockNow: Time, t: TenantId, p: Policy)
    requires ValidConfig(cfg) && Inv(cfg, s) && Limits(s, t, p)
    ensures Limits(CompleteTx(cfg, s, c, result, now, lockNow).0, t, p)
  {
    if ValidResult(result) && ActiveClaim(s, c, lockNow) && c.tenant == s.jobs[c.job].tenant {
      ValidResultIsMeasured(result);
      CompletionKeepsLimits(cfg, s, c, result, now, lockNow, t, p, CompleteTx(cfg, s, c, result, now, lockNow).0);
    } else {
      CompletionRefused(cfg, s, c, result, now, lockNow);
    }
  }

  lemma CompletionKeepsLimits(
    cfg: Config, s: State, c: WorkerClaim, result: DurableJobResult, now: Time, lockNow: Time, t: TenantId, p: Policy,
    s': State)
    requires ValidConfig(cfg) && Inv(cfg, s) && Limits(s, t, p) && ValidResult(result) && MeasuredTimes(result.cases)
    requires ActiveClaim(s, c, lockNow) && c.tenant == s.jobs[c.job].tenant
    requires s' == CompleteTx(cfg, s, c, result, now, lockNow).0
    ensures Limits(s', t, p)
  {
    OwnerIsCovered(cfg, s, c, lockNow);
    var mid := CompletionSettles(cfg, s, c, result, now, lockNow);
    var cancelled := s.jobs[c.job].cancelRequestedAt.Some?;
    SettlementKeepsLimits(cfg, s, mid, s', c, CompletedJob(s.jobs[c.job], result, now),
                          CompletionCharge(s.attempts[AttemptKey(c.job, c.attemptNo)].reserved, cancelled, result),
                          if cancelled then AttemptCancelled else AttemptSucceeded, None, now, t, p);
  }

  lemma FailKeepsLimits(
    cfg: Config, s: State, c: WorkerClaim, f: InfrastructureFailure, now: Time, lockNow: Time, t: TenantId, p: Policy)
    requires ValidConfig(cfg) && Inv(cfg, s) && Limits(s, t, p)
    ensures Limits(FailTx(cfg, s, c, f, now, lockNow).0, t, p)
  {
    if && ValidFailure(f) && ActiveClaim(s, c, lockNow) && c.tenant == s.jobs[c.job].tenant
       && ValidPolicy(s.tenants[c.tenant].policy)
    {
      FailureKeepsLimits(cfg, s, c, f, now, lockNow, t, p, FailTx(cfg, s, c, f, now, lockNow).0);
    } else {
      FailureRefused(cfg, s, c, f, now, lockNow);
    }
  }

  lemma FailureKeepsLimits(
    cfg: Config, s: State, c: WorkerClaim, f: InfrastructureFailure, now: Time, lockNow: Time, t: TenantId, p: Policy,
    s': State)
    requires ValidConfig(cfg) && Inv(cfg, s) && Limits(s, t, p) && ValidFailure(f) && ActiveClaim(s, c, lockNow)
    requires c.tenant == s.jobs[c.job].tenant && ValidPolicy(s.tenants[c.tenant].policy)
    requires s' == FailTx(cfg, s, c, f, now, lockNow).0
    ensures Limits(s', t, p)
  {
    OwnerIsCovered(cfg, s, c, lockNow);
    var mid := FailureSettles(cfg, s, c, f, now, lockNow);
    var d := Disposition(s.jobs[c.job], c, f, s.tenants[c.tenant].policy.maxInfrastructureTries);
    SettlementKeepsLimits(cfg, s, mid, s', c, FailedJob(s.jobs[c.job], d, f, now),
                          if f.chargeFull then s.attempts[AttemptKey(c.job, c.attemptNo)].reserved else 0,
                          if d == CancelledFailure then AttemptCancelled else AttemptFailed,
                          if d == CancelledFailure then None else Some(f.code), now, t, p);
  }

  lemma CancelKeepsLimits(cfg: Config, s: State, tenant: TenantId, j: JobId, now: Time, t: TenantId, p: Policy)
    requires ValidConfig(cfg) && Inv(cfg, s) && Limits(s, t, p)
    ensures Limits(CancelTx(cfg, s, tenant, j, now).0, t, p)
  {
    var s' := CancelTx(cfg, s, tenant, j, now).0;
    if s' != s {
      assert JobFields(s.jobs[j]);
      if s.jobs[j].status == Queued {
        var row := s.jobs[j].(
          status := Cancelled, cancelRequestedAt := Some(now), completedAt := Some(now), lease := None,
          deferredDay := None);
        QueuedJobIsDetached(cfg, s, j);
        PutRow(cfg, s, j, row);
        EventIsInserted(cfg, s.(jobs := s.jobs[j := row]), j, now);
        RowKeepsLimits(s, j, row, t, p, s');
      } else {
        RewrittenKeepsLimits(s, j, s.jobs[j].(cancelRequestedAt := Some(now)), t, p, s');
      }
    }
  }

  /** Writing columns the limits do not look at. */
  lemma RewrittenKeepsLimits(s: State, j: JobId, row: Job, t: TenantId, p: Policy, s': State)
    requires Limits(s, t, p) && j in s.jobs
    requires row == s.jobs[j].(lease := row.lease, cancelRequestedAt := row.cancelRequestedAt)
    requires s'.jobs == s.jobs[j := row] && s'.ledger == s.ledger && s'.tenants == s.tenants
    ensures Limits(s', t, p)
  {
    assert forall d :: DayTotal(s', t, d) == DayTotal(s, t, d);
    forall i | i in s'.jobs && s'.jobs[i].tenant == t
      ensures JobWithinTries(s'.jobs[i], p) && TrulyDeferred(s', s'.jobs[i], p)
    {
      assert JobWithinTries(s.jobs[i], p) && TrulyDeferred(s, s.jobs[i], p);
    }
    CountsShrink(s, s', t, p);
  }

  lemma HeartbeatKeepsLimits(s: State, c: WorkerClaim, duration: nat, now: Time, t: TenantId, p: Policy)
    requires Limits(s, t, p)
    ensures Limits(HeartbeatTx(s, c, duration, now).0, t, p)
  {
    var s' := HeartbeatTx(s, c, duration, now).0;
    if s' != s {
      RewrittenKeepsLimits(s, c.job, s'.jobs[c.job], t, p, s');
    }
  }

  /** A submission is only accepted below the queue limit, so live jobs never exceed queue plus running limit. */
  lemma EnqueueKeepsLimits(
    cfg: Config, s: State, tenant: TenantId, limits: ExecutionLimits, callback: Option<CallbackId>, source: SourceId,
    hash: RequestHash, now: Time,
    t: TenantId, p: Policy)
    requires Inv(cfg, s) && Limits(s, t, p) && ValidPolicy(p)
    ensures Limits(EnqueueTx(s, tenant, limits, callback, source, hash, now).0, t, p)
  {
    var r := EnqueueTx(s, tenant, limits, callback, source, hash, now);
    if r.1.Enqueued? {
      var job := NewJob(tenant, limits, callback, source, hash, now);
      assert s.nextJobId !in s.jobs;
      EnqueuedRows(s, r.0, job, t, p);
      EnqueuedCounts(s, r.0, job, t, p);
    }
  }

  /** One more queued job. */
  lemma QueuedJobAdded(jobs: map<JobId, Job>, j: JobId, job: Job, t: TenantId)
    requires j !in jobs && job.status == Queued
    ensures RunningJobs(jobs[j := job], t) == RunningJobs(jobs, t)
    ensures LiveJobs(jobs[j := job], t) == LiveJobs(jobs, t) + (if job.tenant == t then {j} else {})
  {
  }

  lemma EnqueuedCounts(s: State, s': State, job: Job, t: TenantId, p: Policy)
    requires CountLimits(s, t, p) && job.status == Queued && s.nextJobId !in s.jobs
    requires s'.jobs == s.jobs[s.nextJobId := job]
    requires job.tenant == t ==> |QueuedJobs(s.jobs, t)| < p.maxQueuedJobs
    ensures CountLimits(s', t, p)
  {
    QueuedJobAdded(s.jobs, s.nextJobId, job, t);
    LiveIsQueuedOrRunning(s.jobs, t);
  }

  lemma EnqueuedRows(s: State, s': State, job: Job, t: TenantId, p: Policy)
    requires RowLimits(s, t, p) && ValidPolicy(p) && job.attemptNo == 0 && job.deferredDay == None
    requires s'.jobs == s.jobs[s.nextJobId := job] && s'.ledger == s.ledger && s'.tenants == s.tenants
    ensures RowLimits(s', t, p)
  {
    assert forall d :: DayTotal(s', t, d) == DayTotal(s, t, d);
    forall i | i in s'.jobs && s'.jobs[i].tenant == t
      ensures JobWithinTries(s'.jobs[i], p) && TrulyDeferred(s', s'.jobs[i], p)
    {
      assert i != s.nextJobId ==> JobWithinTries(s.jobs[i], p) && TrulyDeferred(s, s.jobs[i], p);
    }
  }

  lemma RetireKeepsLimits(s: State, j: JobId, t: TenantId, p: Policy)
    requires Limits(s, t, p)
    ensures Limits(RetireTx(s, j), t, p)
  {
    var s' := RetireTx(s, j);
    assert forall d :: DayTotal(s', t, d) == DayTotal(s, t, d);
    forall i | i in s'.jobs && s'.jobs[i].tenant == t
      ensures JobWithinTries(s'.jobs[i], p) && TrulyDeferred(s', s'.jobs[i], p)
    {
      assert JobWithinTries(s.jobs[i], p) && TrulyDeferred(s, s.jobs[i], p);
    }
    CountsShrink(s, s', t, p);
  }

  lemma TenantKeepsLimits(s: State, tenant: TenantId, row: Tenant, t: TenantId, p: Policy)
    requires Limits(s, t, p) && (tenant == t ==> row.policy == p)
    ensures Limits(s.(tenants := s.tenants[tenant := row]), t, p)
  {
    var s' := s.(tenants := s.tenants[tenant := row]);
    assert forall d :: DayTotal(s', t, d) == DayTotal(s, t, d);
    forall i | i in s'.jobs && s'.jobs[i].tenant == t
      ensures JobWithinTries(s'.jobs[i], p) && TrulyDeferred(s', s'.jobs[i], p)
    {
      assert JobWithinTries(s.jobs[i], p) && TrulyDeferred(s, s.jobs[i], p);
    }
  }

  // --------------------------------------------------------------- every run

  /** The step may switch the tenant off and on, but it does not change its policy. */
  predicate KeepsPolicy(step: Step, t: TenantId, p: Policy)
  {
    step.TenantStep? && step.tenant == t ==> step.row.policy == p
  }

  lemma StepKeepsLimits(cfg: Config, s: State, step: Step, t: TenantId, p: Policy)
    requires ValidConfig(cfg) && Inv(cfg, s) && Limits(s, t, p) && ValidPolicy(p) && KeepsPolicy(step, t, p)
    ensures Limits(Apply(cfg, s, step), t, p)
  {
    match step
    case EnqueueStep(tenant, limits, callback, source, hash, now) => EnqueueKeepsLimits(
      cfg, s, tenant, limits, callback, source, hash, now, t, p);
    case ClaimStep(job, worker, token, duration, now) => ClaimKeepsLimits(
      cfg, s, job, worker, token, duration, now, t, p);
    case HeartbeatStep(claim, duration, now) => HeartbeatKeepsLimits(s, claim, duration, now, t, p);
    case CompleteStep(claim, result, now, lockNow) => CompleteKeepsLimits(cfg, s, claim, result, now, lockNow, t, p);
    case FailStep(claim, failure, now, lockNow) => FailKeepsLimits(cfg, s, claim, failure, now, lockNow, t, p);
    case CancelStep(tenant, job, now) => CancelKeepsLimits(cfg, s, tenant, job, now, t, p);
    case RetireStep(job) => RetireKeepsLimits(s, job, t, p);
    case DeliverStep(delivery) => SameRowsKeepLimits(s, t, p, Apply(cfg, s, step));
    case TenantStep(tenant, row) => TenantKeepsLimits(s, tenant, row, t, p);
  }

  lemma {:induction false} RunKeepsLimits(cfg: Config, s: State, steps: seq<Step>, t: TenantId, p: Policy)
    requires ValidConfig(cfg) && Inv(cfg, s) && Limits(s, t, p) && ValidPolicy(p)
    requires forall i :: 0 <= i < |steps| ==> KeepsPolicy(steps[i], t, p)
    ensures Inv(cfg, Run(cfg, s, steps)) && Limits(Run(cfg, s, steps), t, p)
    decreases |steps|
  {
    if steps != [] {
      StepKeepsInv(cfg, s, steps[0]);
      StepKeepsLimits(cfg, s, steps[0], t, p);
      RunKeepsLimits(cfg, Apply(cfg, s, steps[0]), steps[1..], t, p);
    }
  }

  /**
   * Under one valid policy for tenant `t`, in every reachable state: attempts are within the tries (strictly, while
   * queued), running jobs within the running limit, live jobs within queue plus running limit, and every day's reserved
   * plus consumed time within the daily limit.
   */
  lemma PolicyIsKept(cfg: Config, steps: seq<Step>, t: TenantId, p: Policy)
    requires ValidConfig(cfg) && ValidPolicy(p)
    requires forall i :: 0 <= i < |steps| ==> KeepsPolicy(steps[i], t, p)
    ensures
      var s := Run(cfg, Empty(), steps);
      && (forall j :: j in s.jobs && s.jobs[j].tenant == t ==>
            && s.jobs[j].attemptNo <= p.maxInfrastructureTries
            && (s.jobs[j].status == Queued ==> s.jobs[j].attemptNo < p.maxInfrastructureTries))
      && |RunningJobs(s.jobs, t)| <= p.maxRunningJobs
      && |QueuedJobs(s.jobs, t)| + |RunningJobs(s.jobs, t)| <= p.maxQueuedJobs + p.maxRunningJobs
      && (forall d ::
            var row := LedgerAt(s.ledger, DayKey(t, d));
            row.reserved + row.consumed <= p.dailyExecutionMillis)
  {
    EmptyInv(cfg);
    assert RunningJobs(Empty().jobs, t) == {} && LiveJobs(Empty().jobs, t) == {};
    RunKeepsLimits(cfg, Empty(), steps, t, p);
    var s := Run(cfg, Empty(), steps);
    LiveIsQueuedOrRunning(s.jobs, t);
    forall j | j in s.jobs && s.jobs[j].tenant == t ensures JobWithinTries(s.jobs[j], p) {}
    forall d
      ensures
        var row := LedgerAt(s.ledger, DayKey(t, d));
        row.reserved + row.consumed <= p.dailyExecutionMillis
    {
      assert DayTotal(s, t, d) <= p.dailyExecutionMillis;
    }
  }

  /** No lost wake-up: a job that waits for the end of day `d` would be refused a reservation of day `d` right now. */
  lemma DeferredJobsDoNotFit(cfg: Config, steps: seq<Step>, t: TenantId, p: Policy, j: JobId)
    requires ValidConfig(cfg) && ValidPolicy(p)
    requires forall i :: 0 <= i < |steps| ==> KeepsPolicy(steps[i], t, p)
    requires j in Run(cfg, Empty(), steps).jobs && Run(cfg, Empty(), steps).jobs[j].tenant == t
    requires Run(cfg, Empty(), steps).jobs[j].deferredDay.Some?
    ensures
      var s := Run(cfg, Empty(), steps);
      var d := s.jobs[j].deferredDay.value;
      var cost := MaximumExecutionMillis(s.jobs[j].limits);
      && s.jobs[j].status == Queued && s.jobs[j].nextAttemptAt == EndOfDay(d) && cost.Some?
      && !ReserveDaily(s.ledger, DayKey(t, d), p.dailyExecutionMillis, cost.value).Allowed?
  {
    EmptyInv(cfg);
    assert RunningJobs(Empty().jobs, t) == {} && LiveJobs(Empty().jobs, t) == {};
    RunKeepsLimits(cfg, Empty(), steps, t, p);
    var s := Run(cfg, Empty(), steps);
    assert JobFields(s.jobs[j]) && TrulyDeferred(s, s.jobs[j], p);
  }
}
