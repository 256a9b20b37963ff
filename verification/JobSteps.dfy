/** Each transaction of the job worker keeps the invariant, and none of its consistency guards ever fails. */
module JobSteps {
  import opened Options
  import opened Events
  import opened Results
  import opened Sums
  import opened JobModel
  import opened JobInvariants
  import Outbox

  // -------------------------------------------------------------------- claim

  lemma ExpireSucceeds(cfg: Config, s: State, j: JobId, now: Time)
    requires Inv(cfg, s) && j in s.jobs && s.jobs[j].status == Running
    ensures
      var r := ExpireAttempt(s, s.jobs[j].tenant, AttemptKey(j, s.jobs[j].attemptNo), now);
      r.Some? && Detached(cfg, r.value, j) && r.value.jobs[j] == s.jobs[j]
  {
    var k := AttemptKey(j, s.jobs[j].attemptNo);
    assert HasRunningAttempt(s, j) && AttemptOk(s, k);
    var a := s.attempts[k];
    LedgerCoversAttempt(cfg, s, k);
    var closed := CloseAttempt(a, AttemptExpired, Some("LEASE_EXPIRED"), 0, now);
    SettledDetaches(cfg, s, j, closed, now);
    ExpireUnfolds(s, k, now);
  }

  /** An expiry is a settlement that charges nothing. */
  lemma ExpireUnfolds(s: State, k: AttemptKey, now: Time)
    requires k in s.attempts && s.attempts[k].status == AttemptRunning && s.attempts[k].reserved > 0
    requires s.attempts[k].consumed == 0
    requires
      var day := DayKey(s.attempts[k].tenant, s.attempts[k].day);
      day in s.ledger && s.attempts[k].reserved <= s.ledger[day].reserved
    ensures ExpireAttempt(s, s.attempts[k].tenant, k, now) ==
            Some(Settled(s, k, CloseAttempt(s.attempts[k], AttemptExpired, Some("LEASE_EXPIRED"), 0, now), now))
  {
  }

  /** Creating an empty ledger row changes no balance. */
  lemma LedgerRowCreated(cfg: Config, s: State, j: JobId, k: DayKey)
    requires Detached(cfg, s, j)
    ensures Detached(cfg, s.(ledger := s.ledger[k := LedgerAt(s.ledger, k)]), j)
  {
    var s' := s.(ledger := s.ledger[k := LedgerAt(s.ledger, k)]);
    forall i | i in s'.attempts ensures AttemptOk(s', i) { assert AttemptOk(s, i); }
    forall i | i in s'.jobs && s'.jobs[i].status == Running && i != j
      ensures HasRunningAttempt(s', i)
    {
      assert HasRunningAttempt(s, i);
    }
    forall i | i in s'.outbox ensures EventOk(s', i) { assert EventOk(s, i); }
    forall d: DayKey ensures RowBalanced(s', d) {
      assert RowBalanced(s, d);
      assert LedgerAt(s'.ledger, d) == LedgerAt(s.ledger, d);
    }
  }

  lemma ReserveAndGrantKeepsInv(
    cfg: Config, s0: State, s: State, j: JobId, dailyLimit: int, cost: nat, worker: WorkerId, token: Token,
    duration: nat, now: Time)
    requires ValidConfig(cfg) && Inv(cfg, s0) && Detached(cfg, s, j)
    requires s.jobs[j].cancelRequestedAt == None && cost > 0
    ensures Inv(cfg, ReserveAndGrant(cfg, s0, s, j, dailyLimit, cost, worker, token, duration, now).0)
  {
    assert JobFields(s.jobs[j]);
    var k := DayKey(s.jobs[j].tenant, DayOf(now));
    match ReserveDaily(s.ledger, k, dailyLimit, cost)
    case Refused =>
    case Impossible =>
      FailureCodesAreValid();
      TerminateKeepsInv(cfg, s, j, Failed, Some("DAILY_EXECUTION_LIMIT_TOO_LOW"), now);
    case Deferred(ledger) =>
      LedgerRowCreated(cfg, s, j, k);
      DeferKeepsInv(cfg, s.(ledger := ledger), j, now);
    case Allowed(ledger) =>
      GrantKeepsInv(cfg, s, j, ledger, cost, worker, token, duration, now);
  }

  lemma RecoverKeepsInv(cfg: Config, s: State, j: JobId, tenant: Tenant, cost: nat, worker: WorkerId, token: Token,
                        duration: nat, now: Time)
    requires ValidConfig(cfg) && Inv(cfg, s) && j in s.jobs && s.jobs[j].status == Running && cost > 0
    ensures Inv(cfg, RecoverExpired(cfg, s, j, tenant, cost, worker, token, duration, now).0)
  {
    ExpireSucceeds(cfg, s, j, now);
    var s1 := ExpireAttempt(s, s.jobs[j].tenant, AttemptKey(j, s.jobs[j].attemptNo), now).value;
    var tries := tenant.policy.maxInfrastructureTries;
    if !tenant.active || s.jobs[j].cancelRequestedAt.Some? || s.jobs[j].attemptNo >= tries {
      RecoveryEndKeepsInv(cfg, s, s1, j, tenant, cost, worker, token, duration, now);
    } else {
      ReserveAndGrantKeepsInv(cfg, s, s1, j, tenant.policy.dailyExecutionMillis, cost, worker, token, duration, now);
    }
  }

  /** How a recovery ends a job that it does not grant again. */
  function RecoveryEnd(job: Job, tenant: Tenant): (JobStatus, Option<string>)
  {
    if !tenant.active then (Failed, Some("TENANT_DISABLED"))
    else if job.cancelRequestedAt.Some? then (Cancelled, None)
    else (Failed, Some("LEASE_EXPIRED"))
  }

  lemma RecoveryEndUnfolds(
    cfg: Config, s: State, s1: State, j: JobId, tenant: Tenant, cost: nat, worker: WorkerId, token: Token,
    duration: nat, now: Time)
    requires j in s.jobs && s.jobs[j].result == None
    requires ExpireAttempt(s, s.jobs[j].tenant, AttemptKey(j, s.jobs[j].attemptNo), now) == Some(s1)
    requires
      || !tenant.active || s.jobs[j].cancelRequestedAt.Some?
      || s.jobs[j].attemptNo >= tenant.policy.maxInfrastructureTries
    ensures
      var (status, code) := RecoveryEnd(s.jobs[j], tenant);
      RecoverExpired(cfg, s, j, tenant, cost, worker, token, duration, now) ==
      Committed(s, Terminate(cfg, s1, j, status, None, code, now), Retry)
  {
  }

  /** The recoveries that end the job. */
  lemma RecoveryEndKeepsInv(
    cfg: Config, s: State, s1: State, j: JobId, tenant: Tenant, cost: nat, worker: WorkerId, token: Token,
    duration: nat, now: Time)
    requires ValidConfig(cfg) && JobRowsOk(s) && j in s.jobs && Detached(cfg, s1, j) && s1.jobs[j] == s.jobs[j]
    requires s.jobs[j].status == Running
    requires ExpireAttempt(s, s.jobs[j].tenant, AttemptKey(j, s.jobs[j].attemptNo), now) == Some(s1)
    requires
      || !tenant.active || s.jobs[j].cancelRequestedAt.Some?
      || s.jobs[j].attemptNo >= tenant.policy.maxInfrastructureTries
    ensures Inv(cfg, RecoverExpired(cfg, s, j, tenant, cost, worker, token, duration, now).0)
  {
    assert JobFields(s.jobs[j]);
    FailureCodesAreValid();
    RecoveryEndUnfolds(cfg, s, s1, j, tenant, cost, worker, token, duration, now);
    var (status, code) := RecoveryEnd(s.jobs[j], tenant);
    TerminateKeepsInv(cfg, s1, j, status, code, now);
  }

  lemma ClaimKeepsInv(cfg: Config, s: State, j: JobId, worker: WorkerId, token: Token, duration: nat, now: Time)
    requires ValidConfig(cfg) && Inv(cfg, s)
    ensures Inv(cfg, ClaimOne(cfg, s, j, worker, token, duration, now).0)
  {
    if j in s.jobs && s.jobs[j].tenant in s.tenants && MaximumExecutionMillis(s.jobs[j].limits).Some? {
      var cost := MaximumExecutionMillis(s.jobs[j].limits).value;
      var tenant := s.tenants[s.jobs[j].tenant];
      assert JobFields(s.jobs[j]);
      if s.jobs[j].status == Running {
        RecoverKeepsInv(cfg, s, j, tenant, cost, worker, token, duration, now);
      } else if s.jobs[j].status == Queued {
        QueuedJobIsDetached(cfg, s, j);
        ReserveAndGrantKeepsInv(cfg, s, s, j, tenant.policy.dailyExecutionMillis, cost, worker, token, duration, now);
      }
    }
  }

  // --------------------------------------------------------------- settlement

  lemma HeartbeatKeepsInv(cfg: Config, s: State, c: WorkerClaim, duration: nat, now: Time)
    requires Inv(cfg, s)
    ensures Inv(cfg, HeartbeatTx(s, c, duration, now).0)
  {
    if HeartbeatTx(s, c, duration, now).1 == Done {
      HeartbeatDone(cfg, s, c, duration, now, HeartbeatTx(s, c, duration, now).0);
    }
  }

  lemma HeartbeatDone(cfg: Config, s: State, c: WorkerClaim, duration: nat, now: Time, s': State)
    requires Inv(cfg, s) && HeartbeatTx(s, c, duration, now) == (s', Done)
    ensures Inv(cfg, s')
  {
    HeartbeatExtends(s, c, duration, now);
    LeaseExtended(cfg, s, s', c.job, AttemptKey(c.job, c.attemptNo), now + duration);
  }

  lemma HeartbeatExtends(s: State, c: WorkerClaim, duration: nat, now: Time)
    requires HeartbeatTx(s, c, duration, now).1 == Done
    ensures ActiveClaim(s, c, now) && AttemptOwned(s, c)
    ensures HeartbeatTx(s, c, duration, now).0 == Extended(s, c.job, AttemptKey(c.job, c.attemptNo), now + duration)
  {
  }

  /** Moving the lease of a running job and of its attempt together. */
  function Extended(s: State, j: JobId, k: AttemptKey, until: Time): State
    requires j in s.jobs && s.jobs[j].lease.Some? && k in s.attempts
  {
    s.(jobs := s.jobs[j := s.jobs[j].(lease := Some(s.jobs[j].lease.value.(until := until)))],
       attempts := s.attempts[k := s.attempts[k].(leaseUntil := until)])
  }

  lemma LeaseExtended(cfg: Config, s: State, s': State, j: JobId, k: AttemptKey, until: Time)
    requires Inv(cfg, s) && j in s.jobs && s.jobs[j].status == Running && k == AttemptKey(j, s.jobs[j].attemptNo)
    requires k in s.attempts && s.jobs[j].lease.Some? && s' == Extended(s, j, k, until)
    ensures Inv(cfg, s')
  {
    ExtendedAttempts(s, j, k, until);
    ExtendedRows(cfg, s, j, k, until);
    SameSharesBalance(s, k, s.attempts[k].(leaseUntil := until), s');
  }

  lemma ExtendedAttempts(s: State, j: JobId, k: AttemptKey, until: Time)
    requires j in s.jobs && s.jobs[j].lease.Some? && k == AttemptKey(j, s.jobs[j].attemptNo) && k in s.attempts
    requires AttemptsOk(s) && RunningJobsHaveAttempts(s, {})
    ensures AttemptsOk(Extended(s, j, k, until)) && RunningJobsHaveAttempts(Extended(s, j, k, until), {})
  {
    var s' := Extended(s, j, k, until);
    forall i | i in s'.attempts ensures AttemptOk(s', i) { assert AttemptOk(s, i); }
    forall i | i in s'.jobs && s'.jobs[i].status == Running
      ensures HasRunningAttempt(s', i)
    {
      assert HasRunningAttempt(s, i);
    }
  }

  lemma ExtendedRows(cfg: Config, s: State, j: JobId, k: AttemptKey, until: Time)
    requires JobRowsOk(s) && RetiredOk(s) && EventsOk(cfg, s)
    requires j in s.jobs && s.jobs[j].status == Running && s.jobs[j].lease.Some? && k in s.attempts
    ensures
      var s' := Extended(s, j, k, until);
      JobRowsOk(s') && RetiredOk(s') && EventsOk(cfg, s')
  {
    var s' := Extended(s, j, k, until);
    assert JobFields(s.jobs[j]);
    forall i | i in s'.outbox ensures EventOk(s', i) { assert EventOk(s, i); }
  }

  lemma SameSharesBalance(s: State, k: AttemptKey, a: Attempt, s': State)
    requires Balanced(s) && k in s.attempts
    requires s'.attempts == s.attempts[k := a] && s'.ledger == s.ledger && s'.retired == s.retired
    requires forall d ::
               && ReservedShare(a, d) == ReservedShare(s.attempts[k], d)
               && ConsumedShare(a, d) == ConsumedShare(s.attempts[k], d)
    ensures Balanced(s')
  {
    forall d: DayKey ensures RowBalanced(s', d) {
      assert RowBalanced(s, d);
      AttemptWritten(s.attempts, k, a, d);
    }
  }

  /**
   * Rewriting the job before or after the settlement is the same, except that a requeued job is woken with the others.
   */
  lemma WakeAfterWrite(jobs: map<JobId, Job>, j: JobId, row: Job, t: TenantId, d: Day, now: Time)
    ensures Wake(jobs[j := row], t, d, now) == Wake(jobs, t, d, now)[j := WakeJob(row, t, d, now)]
  {
  }

  lemma WokenFields(row: Job, t: TenantId, d: Day, now: Time)
    requires JobFields(row)
    ensures JobFields(WakeJob(row, t, d, now)) && KeepsIdentity(row, WakeJob(row, t, d, now))
    ensures WakeJob(row, t, d, now).status == row.status
    ensures row.status != Queued ==> WakeJob(row, t, d, now) == row
  {
  }

  /** The job row and the attempt after an owner's settlement. */
  predicate SettledBy(
    s: State, s': State, c: WorkerClaim, row: Job, charge: nat, status: AttemptStatus, code: Option<string>, now: Time)
    requires c.job in s.jobs && AttemptKey(c.job, c.attemptNo) in s.attempts
  {
    var k := AttemptKey(c.job, c.attemptNo);
    var a := s.attempts[k];
    var base := Settled(s, k, CloseAttempt(a, status, code, charge, now), now);
    s' == base.(jobs := base.jobs[c.job := WakeJob(row, a.tenant, a.day, now)])
  }

  /**
   * Settlement by the owner of the fence always commits: the attempt is closed with exactly the given charge, the
   * ledger row of its day moves by exactly that charge, and a terminal job is announced.
   */
  lemma SettleCommits(
    cfg: Config, s: State, c: WorkerClaim, row: Job, cases: seq<DurableCaseResult>, full: bool,
    status: AttemptStatus, code: Option<string>, announce: bool, now: Time)
    returns (mid: State)
    requires ValidConfig(cfg) && Inv(cfg, s) && MeasuredTimes(cases)
    requires c.job in s.jobs && s.jobs[c.job].status == Running && s.jobs[c.job].attemptNo == c.attemptNo
    requires s.jobs[c.job].lease.value.worker == c.worker && s.jobs[c.job].lease.value.token == c.token
    requires c.tenant == s.jobs[c.job].tenant
    requires JobFields(row) && KeepsIdentity(s.jobs[c.job], row) && status != AttemptRunning
    requires if announce then Terminal(row.status) else row.status == Queued
    ensures
      var k := AttemptKey(c.job, c.attemptNo);
      var r := SettleClaim(cfg, s, s.(jobs := s.jobs[c.job := row]), c, cases, full, status, code, announce, now);
      && r.1 == Done && Inv(cfg, r.0)
      && k in s.attempts
      && SettledBy(s, mid, c, row, Charge(s.attempts[k].reserved, cases, full), status, code, now)
      && c.job in mid.jobs && if announce then Announced(mid, r.0, c.job) else r.0 == mid
  {
    var k := AttemptKey(c.job, c.attemptNo);
    assert HasRunningAttempt(s, c.job) && AttemptOk(s, k);
    var a := s.attempts[k];
    LedgerCoversAttempt(cfg, s, k);
    var charge := Charge(a.reserved, cases, full);
    var closed := CloseAttempt(a, status, code, charge, now);
    SettledDetaches(cfg, s, c.job, closed, now);
    var base := Settled(s, k, closed, now);
    WakeAfterWrite(s.jobs, c.job, row, a.tenant, a.day, now);
    WokenFields(row, a.tenant, a.day, now);
    var row' := WakeJob(row, a.tenant, a.day, now);
    PutRow(cfg, base, c.job, row');
    mid := base.(jobs := base.jobs[c.job := row']);
    assert SettledBy(s, mid, c, row, charge, status, code, now);
    SettleUnfolds(s, c, row, cases, full, status, code, now, mid);
    if announce {
      EventIsInserted(cfg, mid, c.job, now);
    }
  }

  lemma SettleUnfolds(
    s: State, c: WorkerClaim, row: Job, cases: seq<DurableCaseResult>, full: bool, status: AttemptStatus,
    code: Option<string>, now: Time, mid: State)
    requires MeasuredTimes(cases) && c.job in s.jobs && AttemptOwned(s, c)
    requires
      var k := AttemptKey(c.job, c.attemptNo);
      var a := s.attempts[k];
      && a.tenant == c.tenant && 0 < a.reserved
      && DayKey(a.tenant, a.day) in s.ledger && a.reserved <= s.ledger[DayKey(a.tenant, a.day)].reserved
      && SettledBy(s, mid, c, row, Charge(a.reserved, cases, full), status, code, now)
    ensures
      var s0 := s.(jobs := s.jobs[c.job := row]);
      var r := ReleaseReservation(s0, c.tenant, AttemptKey(c.job, c.attemptNo), now, cases, full);
      r.Some? && FinishAttempt(r.value.0, c, status, code, r.value.1, now) == Some(mid)
  {
    var k := AttemptKey(c.job, c.attemptNo);
    var a := s.attempts[k];
    WakeAfterWrite(s.jobs, c.job, row, a.tenant, a.day, now);
  }

  function CompletedJob(job: Job, result: DurableJobResult, now: Time): Job
  {
    var cancelled := job.cancelRequestedAt.Some?;
    job.(status := if cancelled then Cancelled else Succeeded,
         result := if cancelled then None else Some(result),
         failureCode := None, completedAt := Some(now), lease := None, deferredDay := None)
  }

  lemma CompleteKeepsInv(cfg: Config, s: State, c: WorkerClaim, result: DurableJobResult, now: Time, lockNow: Time)
    requires ValidConfig(cfg) && Inv(cfg, s)
    ensures Inv(cfg, CompleteTx(cfg, s, c, result, now, lockNow).0)
    ensures ValidResult(result) && ActiveClaim(s, c, lockNow) && c.tenant == s.jobs[c.job].tenant ==>
              CompleteTx(cfg, s, c, result, now, lockNow).1 == Done
  {
    if ValidResult(result) && ActiveClaim(s, c, lockNow) && c.tenant == s.jobs[c.job].tenant {
      var job := s.jobs[c.job];
      assert JobFields(job);
      var cancelled := job.cancelRequestedAt.Some?;
      var full := |result.cases| == 0 && (cancelled || result.compileStatus == "FAILED");
      var _ := SettleCommits(cfg, s, c, CompletedJob(job, result, now), result.cases, full,
                    if cancelled then AttemptCancelled else AttemptSucceeded, None, true, now);
    } else if ValidResult(result) && ActiveClaim(s, c, lockNow) {
      var k := AttemptKey(c.job, c.attemptNo);
      assert k in s.attempts ==> AttemptOk(s, k);
    }
  }

  lemma FailKeepsInv(cfg: Config, s: State, c: WorkerClaim, f: InfrastructureFailure, now: Time, lockNow: Time)
    requires ValidConfig(cfg) && Inv(cfg, s)
    ensures Inv(cfg, FailTx(cfg, s, c, f, now, lockNow).0)
    ensures ValidFailure(f) && ActiveClaim(s, c, lockNow) && c.tenant == s.jobs[c.job].tenant
            && ValidPolicy(s.tenants[s.jobs[c.job].tenant].policy) ==>
              FailTx(cfg, s, c, f, now, lockNow).1 == Done
  {
    if ValidFailure(f) && ActiveClaim(s, c, lockNow) && ValidPolicy(s.tenants[s.jobs[c.job].tenant].policy) {
      var job := s.jobs[c.job];
      assert JobFields(job);
      if c.tenant == job.tenant {
        var d := Disposition(job, c, f, s.tenants[job.tenant].policy.maxInfrastructureTries);
        var _ := SettleCommits(cfg, s, c, FailedJob(job, d, f, now), [], f.chargeFull,
                      if d == CancelledFailure then AttemptCancelled else AttemptFailed,
                      if d == CancelledFailure then None else Some(f.code), d != Requeued, now);
      } else {
        var k := AttemptKey(c.job, c.attemptNo);
        assert k in s.attempts ==> AttemptOk(s, k);
      }
    }
  }

  // ------------------------------------------------------------- cancellation

  lemma CancelKeepsInv(cfg: Config, s: State, tenant: TenantId, j: JobId, now: Time)
    requires ValidConfig(cfg) && Inv(cfg, s)
    ensures Inv(cfg, CancelTx(cfg, s, tenant, j, now).0)
    ensures CancelTx(cfg, s, tenant, j, now).1 != CancelUnavailable
  {
    if tenant in s.tenants && j in s.jobs && s.jobs[j].tenant == tenant {
      var job := s.jobs[j];
      assert JobFields(job);
      if job.status == Queued {
        var row := job.(
          status := Cancelled, cancelRequestedAt := Some(now), completedAt := Some(now), lease := None,
          deferredDay := None);
        QueuedJobIsDetached(cfg, s, j);
        PutRow(cfg, s, j, row);
        EventIsInserted(cfg, s.(jobs := s.jobs[j := row]), j, now);
      } else if job.status == Running && job.cancelRequestedAt == None {
        CancellationRecorded(cfg, s, j, now);
      }
    }
  }

  lemma CancellationRecorded(cfg: Config, s: State, j: JobId, now: Time)
    requires Inv(cfg, s) && j in s.jobs && s.jobs[j].status == Running
    ensures Inv(cfg, s.(jobs := s.jobs[j := s.jobs[j].(cancelRequestedAt := Some(now))]))
  {
    var s' := s.(jobs := s.jobs[j := s.jobs[j].(cancelRequestedAt := Some(now))]);
    CancelledRows(s, s', j, now);
    assert j in s.outbox ==> EventOk(s, j);
    EventsFrame(cfg, s, s', j);
    BalanceFrame(s, s');
  }

  lemma CancelledRows(s: State, s': State, j: JobId, now: Time)
    requires JobRowsOk(s) && RunningJobsHaveAttempts(s, {}) && AttemptsOk(s) && j in s.jobs
    requires s.jobs[j].status == Running
    requires s' == s.(jobs := s.jobs[j := s.jobs[j].(cancelRequestedAt := Some(now))])
    ensures JobRowsOk(s') && RunningJobsHaveAttempts(s', {}) && AttemptsOk(s')
  {
    assert JobFields(s.jobs[j]);
    forall i | i in s'.attempts ensures AttemptOk(s', i) { assert AttemptOk(s, i); }
    forall i | i in s'.jobs && s'.jobs[i].status == Running
      ensures HasRunningAttempt(s', i)
    {
      assert HasRunningAttempt(s, i);
    }
  }

  // -------------------------------------------------- the rest of the tables

  lemma EnqueuedRows(s: State, s': State, job: Job)
    requires JobRowsOk(s) && RunningJobsHaveAttempts(s, {}) && AttemptsOk(s) && RetiredOk(s)
    requires JobFields(job) && job.status == Queued && job.tenant in s.tenants
    requires s' == s.(jobs := s.jobs[s.nextJobId := job], nextJobId := s.nextJobId + 1)
    ensures JobRowsOk(s') && RunningJobsHaveAttempts(s', {}) && AttemptsOk(s') && RetiredOk(s')
  {
    assert s.nextJobId !in s.jobs;
    forall i | i in s'.attempts ensures AttemptOk(s', i) { assert AttemptOk(s, i); }
    forall i | i in s'.jobs && s'.jobs[i].status == Running
      ensures HasRunningAttempt(s', i)
    {
      assert HasRunningAttempt(s, i);
    }
  }

  lemma EnqueueKeepsInv(
    cfg: Config, s: State, tenant: TenantId, limits: ExecutionLimits, callback: Option<CallbackId>, source: SourceId,
    hash: RequestHash, now: Time)
    requires Inv(cfg, s)
    ensures Inv(cfg, EnqueueTx(s, tenant, limits, callback, source, hash, now).0)
  {
    var r := EnqueueTx(s, tenant, limits, callback, source, hash, now);
    if r.1.Enqueued? {
      var s' := r.0;
      EnqueuedRows(s, s', NewJob(tenant, limits, callback, source, hash, now));
      assert s.nextJobId in s.outbox ==> EventOk(s, s.nextJobId);
      EventsFrame(cfg, s, s', s.nextJobId);
      BalanceFrame(s, s');
    }
  }

  /** Moving the attempts of a job to the history keeps every sum of charges. */
  lemma RetireBalances(s: State, j: JobId)
    requires Balanced(s)
    requires forall k :: k in s.attempts && k.job == j ==> s.attempts[k].status != AttemptRunning
    requires forall k :: k in s.retired ==> k.job != j
    requires Retirable(s, j)
    ensures Balanced(RetireTx(s, j))
  {
    var s' := RetireTx(s, j);
    var moved := map k | k in s.attempts && k.job == j :: s.attempts[k];
    assert s.attempts == s'.attempts + moved;
    forall d: DayKey ensures RowBalanced(s', d) {
      assert RowBalanced(s, d);
      MoveReserved(s, s', moved, d);
      MoveConsumed(s, s', moved, d);
    }
  }

  lemma MoveReserved(s: State, s': State, moved: map<AttemptKey, Attempt>, d: DayKey)
    requires s'.attempts.Keys !! moved.Keys && s.attempts == s'.attempts + moved
    requires forall k :: k in moved ==> moved[k].status != AttemptRunning
    ensures ReservedOf(s'.attempts, d) == ReservedOf(s.attempts, d)
  {
    var kept, gone := ReservedShares(s'.attempts, d), ReservedShares(moved, d);
    assert ReservedShares(s.attempts, d) == kept + gone;
    SumUnion(kept, gone);
    SumZero(gone);
  }

  lemma ConsumedOfUnion(a: map<AttemptKey, Attempt>, b: map<AttemptKey, Attempt>, d: DayKey)
    requires a.Keys !! b.Keys
    ensures ConsumedOf(a + b, d) == ConsumedOf(a, d) + ConsumedOf(b, d)
  {
    assert ConsumedShares(a + b, d) == ConsumedShares(a, d) + ConsumedShares(b, d);
    SumUnion(ConsumedShares(a, d), ConsumedShares(b, d));
  }

  lemma MoveConsumed(s: State, s': State, moved: map<AttemptKey, Attempt>, d: DayKey)
    requires s'.attempts.Keys !! moved.Keys && s.retired.Keys !! moved.Keys
    requires s.attempts == s'.attempts + moved && s'.retired == s.retired + moved
    ensures ConsumedOf(s'.attempts, d) + ConsumedOf(s'.retired, d) ==
            ConsumedOf(s.attempts, d) + ConsumedOf(s.retired, d)
  {
    ConsumedOfUnion(s'.attempts, moved, d);
    ConsumedOfUnion(s.retired, moved, d);
  }

  lemma RetireRows(s: State, j: JobId, s': State)
    requires JobRowsOk(s) && RunningJobsHaveAttempts(s, {}) && AttemptsOk(s) && RetiredOk(s)
    requires forall k :: k in s.attempts && k.job == j ==> s.attempts[k].status != AttemptRunning
    requires Retirable(s, j) && s' == RetireTx(s, j)
    ensures JobRowsOk(s') && RunningJobsHaveAttempts(s', {}) && AttemptsOk(s') && RetiredOk(s')
  {
    forall i | i in s'.attempts ensures AttemptOk(s', i) { assert AttemptOk(s, i); }
    forall i | i in s'.jobs && s'.jobs[i].status == Running
      ensures HasRunningAttempt(s', i)
    {
      assert HasRunningAttempt(s, i);
    }
  }

  lemma RetireKeepsInv(cfg: Config, s: State, j: JobId)
    requires Inv(cfg, s)
    ensures Inv(cfg, RetireTx(s, j))
  {
    if Retirable(s, j) {
      var s' := RetireTx(s, j);
      forall k | k in s.attempts && k.job == j ensures s.attempts[k].status != AttemptRunning {
        assert AttemptOk(s, k) && JobFields(s.jobs[j]);
      }
      RetireBalances(s, j);
      RetireRows(s, j, s');
      EventsFrame(cfg, s, s', j);
    }
  }

  lemma DeliverKeepsInv(cfg: Config, s: State, delivery: Outbox.Step)
    requires Inv(cfg, s)
    ensures Inv(cfg, s.(outbox := Outbox.Apply(s.outbox, delivery, cfg.webhookMaxAttempts)))
  {
    Outbox.StepKeepsRowsOk(s.outbox, delivery, cfg.webhookMaxAttempts);
    var outbox := Outbox.Apply(s.outbox, delivery, cfg.webhookMaxAttempts);
    var s' := s.(outbox := outbox);
    forall i | i in outbox ensures EventOk(s', i) {
      assert EventOk(s, i) && Outbox.RowAdvances(s.outbox[i], outbox[i]);
    }
    OutboxWritten(cfg, s, outbox);
  }

  lemma TenantKeepsInv(cfg: Config, s: State, t: TenantId, row: Tenant)
    requires Inv(cfg, s)
    ensures Inv(cfg, s.(tenants := s.tenants[t := row]))
  {
    var s' := s.(tenants := s.tenants[t := row]);
    forall i | i in s'.attempts ensures AttemptOk(s', i) { assert AttemptOk(s, i); }
    forall i | i in s'.jobs && s'.jobs[i].status == Running
      ensures HasRunningAttempt(s', i)
    {
      assert HasRunningAttempt(s, i);
    }
    forall i | i in s'.outbox ensures EventOk(s', i) { assert EventOk(s, i); }
    forall d: DayKey ensures RowBalanced(s', d) { assert RowBalanced(s, d); }
  }

  // --------------------------------------------------------------- every run

  lemma StepKeepsInv(cfg: Config, s: State, step: Step)
    requires ValidConfig(cfg) && Inv(cfg, s)
    ensures Inv(cfg, Apply(cfg, s, step))
  {
    match step
    case EnqueueStep(tenant, limits, callback, source, hash, now) => EnqueueKeepsInv(
      cfg, s, tenant, limits, callback, source, hash, now);
    case ClaimStep(job, worker, token, duration, now) => ClaimKeepsInv(cfg, s, job, worker, token, duration, now);
    case HeartbeatStep(claim, duration, now) => HeartbeatKeepsInv(cfg, s, claim, duration, now);
    case CompleteStep(claim, result, now, lockNow) => CompleteKeepsInv(cfg, s, claim, result, now, lockNow);
    case FailStep(claim, failure, now, lockNow) => FailKeepsInv(cfg, s, claim, failure, now, lockNow);
    case CancelStep(tenant, job, now) => CancelKeepsInv(cfg, s, tenant, job, now);
    case RetireStep(job) => RetireKeepsInv(cfg, s, job);
    case DeliverStep(delivery) => DeliverKeepsInv(cfg, s, delivery);
    case TenantStep(tenant, row) => TenantKeepsInv(cfg, s, tenant, row);
  }

  lemma EmptyInv(cfg: Config)
    ensures Inv(cfg, Empty())
  {
  }

  lemma {:induction false} RunKeepsInv(cfg: Config, s: State, steps: seq<Step>)
    requires ValidConfig(cfg) && Inv(cfg, s)
    ensures Inv(cfg, Run(cfg, s, steps))
    decreases |steps|
  {
    if steps != [] {
      StepKeepsInv(cfg, s, steps[0]);
      RunKeepsInv(cfg, Apply(cfg, s, steps[0]), steps[1..]);
    }
  }
}
