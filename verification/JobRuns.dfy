/** How single rows may change from one state of a run to a later one: fencing, finality and announcements. */
module JobRuns {
  import opened Options
  import opened Events
  import opened Results
  import opened JobModel
  import opened JobInvariants
  import opened JobSteps
  import Outbox

  // --------------------------------------------------- what a row may become

  /** A job keeps its identity and its cancellation, counts its attempts upwards, and is frozen once terminal. */
  predicate JobAdvances(before: Job, after: Job)
  {
    && after.tenant == before.tenant && after.callback == before.callback && after.limits == before.limits
    && after.source == before.source && after.requestHash == before.requestHash && after.createdAt == before.createdAt
    && before.attemptNo <= after.attemptNo
    && (Terminal(before.status) ==> after == before)
    && (before.cancelRequestedAt.Some? ==> after.cancelRequestedAt == before.cancelRequestedAt)
    && (after.attemptNo == before.attemptNo && before.status != Running ==> after.status != Running)
  }

  ghost predicate JobsAdvance(s: State, s': State)
  {
    && s.nextJobId <= s'.nextJobId
    && (forall j :: j in s.jobs && j !in s'.jobs ==> Terminal(s.jobs[j].status))
    && (forall j :: j in s'.jobs && j < s.nextJobId ==> j in s.jobs && JobAdvances(s.jobs[j], s'.jobs[j]))
  }

  /** A settled attempt is never settled again: its row is frozen, in the table or in the history. */
  ghost predicate AttemptsAdvance(s: State, s': State)
  {
    && (forall k :: k in s.attempts && s.attempts[k].status != AttemptRunning ==>
          || (k in s'.attempts && s'.attempts[k] == s.attempts[k])
          || (k in s'.retired && s'.retired[k] == s.attempts[k]))
    && (forall k :: k in s.retired ==> k in s'.retired && s'.retired[k] == s.retired[k])
  }

  predicate Ends(s: State, s': State, j: JobId)
  {
    j in s.jobs && j in s'.jobs && !Terminal(s.jobs[j].status) && Terminal(s'.jobs[j].status)
  }

  /** An event appears exactly when its job becomes terminal, and it is a fresh one. */
  ghost predicate Announces(s: State, s': State)
  {
    && (forall j :: Ends(s, s', j) && s'.jobs[j].callback.Some? ==>
          j !in s.outbox && j in s'.outbox && s'.outbox[j].status == Outbox.Pending && s'.outbox[j].attemptCount == 0)
    && (forall j :: j in s'.outbox && j !in s.outbox ==>
          Ends(s, s', j) && s'.jobs[j].callback.Some?)
  }

  ghost predicate Advances(s: State, s': State)
  {
    JobsAdvance(s, s') && AttemptsAdvance(s, s') && Announces(s, s')
  }

  // ----------------------------------------------- one row written, others woken

  predicate OthersWoken(before: map<JobId, Job>, after: map<JobId, Job>, j: JobId, t: TenantId, d: Day, now: Time)
  {
    && after.Keys == before.Keys
    && (forall i :: i in before && i != j ==> after[i] == WakeJob(before[i], t, d, now) || after[i] == before[i])
  }

  lemma WokenAdvances(job: Job, t: TenantId, d: Day, now: Time)
    ensures JobAdvances(job, WakeJob(job, t, d, now))
    ensures WakeJob(job, t, d, now).status == job.status
  {
  }

  lemma JobWritten(s: State, s': State, j: JobId, t: TenantId, d: Day, now: Time)
    requires j in s.jobs
    requires s'.nextJobId == s.nextJobId && OthersWoken(s.jobs, s'.jobs, j, t, d, now)
    requires JobAdvances(s.jobs[j], s'.jobs[j])
    ensures JobsAdvance(s, s')
    ensures forall i :: i in s.jobs && i != j ==> s'.jobs[i].status == s.jobs[i].status
  {
    forall i | i in s'.jobs
      ensures JobAdvances(s.jobs[i], s'.jobs[i]) && (i != j ==> s'.jobs[i].status == s.jobs[i].status)
    {
      WokenAdvances(s.jobs[i], t, d, now);
    }
  }

  /** The outbox gets the event of a job that ended, and nothing else. */
  predicate EventWritten(s: State, s': State, j: JobId)
    requires j in s'.jobs
  {
    if Terminal(s'.jobs[j].status) && s'.jobs[j].callback.Some?
    then
      && j in s'.outbox && s'.outbox == s.outbox[j := s'.outbox[j]]
      && s'.outbox[j].status == Outbox.Pending && s'.outbox[j].attemptCount == 0
    else s'.outbox == s.outbox
  }

  /** One job moved on, possibly with a new attempt. */
  predicate JobMoved(s: State, s': State, j: JobId)
    requires j in s.jobs
  {
    var k := AttemptKey(j, s.jobs[j].attemptNo + 1);
    && j in s'.jobs && s'.jobs == s.jobs[j := s'.jobs[j]] && JobAdvances(s.jobs[j], s'.jobs[j])
    && (s'.attempts == s.attempts || (k in s'.attempts && s'.attempts == s.attempts[k := s'.attempts[k]]))
    && s'.retired == s.retired && s'.nextJobId == s.nextJobId
    && EventWritten(s, s', j)
  }

  /** A live job has no event and no later attempt, and while it runs it has its attempt. */
  lemma LiveJob(cfg: Config, s: State, j: JobId)
    requires Inv(cfg, s) && j in s.jobs && !Terminal(s.jobs[j].status)
    ensures j !in s.outbox && AttemptKey(j, s.jobs[j].attemptNo + 1) !in s.attempts
    ensures s.jobs[j].status == Running ==> HasRunningAttempt(s, j)
  {
    var next := AttemptKey(j, s.jobs[j].attemptNo + 1);
    assert next in s.attempts ==> AttemptOk(s, next);
    assert j in s.outbox ==> EventOk(s, j);
  }

  /** Combines the three relations for a transaction about one job. */
  lemma TransactionAdvances(s: State, s': State, j: JobId, t: TenantId, d: Day, now: Time, keys: set<AttemptKey>)
    requires j in s.jobs && !Terminal(s.jobs[j].status) && j !in s.outbox
    requires s'.nextJobId == s.nextJobId && OthersWoken(s.jobs, s'.jobs, j, t, d, now)
    requires JobAdvances(s.jobs[j], s'.jobs[j])
    requires s'.retired == s.retired
    requires forall k :: k in s.attempts && k !in keys ==> k in s'.attempts && s'.attempts[k] == s.attempts[k]
    requires forall k :: k in keys && k in s.attempts ==> s.attempts[k].status == AttemptRunning
    requires EventWritten(s, s', j)
    ensures Advances(s, s')
  {
    JobWritten(s, s', j, t, d, now);
    forall i | i in s'.outbox && i !in s.outbox ensures i == j {}
  }

  // ---------------------------------------------------------- each transaction

  lemma ExpireEffect(cfg: Config, s: State, j: JobId, now: Time) returns (s1: State)
    requires Inv(cfg, s) && j in s.jobs && s.jobs[j].status == Running
    ensures
      var k := AttemptKey(j, s.jobs[j].attemptNo);
      && ExpireAttempt(s, s.jobs[j].tenant, k, now) == Some(s1)
      && HasRunningAttempt(s, j)
      && s1.jobs == Wake(s.jobs, s.attempts[k].tenant, s.attempts[k].day, now)
      && s1.jobs[j] == s.jobs[j]
      && s1.attempts == s.attempts[k := s1.attempts[k]]
      && s1.outbox == s.outbox && s1.retired == s.retired && s1.nextJobId == s.nextJobId && s1.tenants == s.tenants
      && Detached(cfg, s1, j)
  {
    ExpireSucceeds(cfg, s, j, now);
    s1 := ExpireAttempt(s, s.jobs[j].tenant, AttemptKey(j, s.jobs[j].attemptNo), now).value;
    assert HasRunningAttempt(s, j);
  }

  /** Ending a detached job writes its row and its event. */
  lemma TerminateEffect(
    cfg: Config, s: State, j: JobId, status: JobStatus, code: Option<string>, now: Time)
    returns (s': State)
    requires ValidConfig(cfg) && Detached(cfg, s, j)
    requires (status == Failed && code.Some? && ValidFailureCode(code.value))
          || (status == Cancelled && code == None && s.jobs[j].cancelRequestedAt.Some?)
    ensures Terminate(cfg, s, j, status, None, code, now) == Some(s')
    ensures JobMoved(s, s', j) && s'.jobs[j].status == status && s'.attempts == s.attempts
  {
    var job := s.jobs[j].(status := status, lease := None, result := None, failureCode := code,
                          completedAt := Some(now), deferredDay := None);
    assert JobFields(s.jobs[j]);
    PutRow(cfg, s, j, job);
    var mid := s.(jobs := s.jobs[j := job]);
    EventIsInserted(cfg, mid, j, now);
    s' := InsertTerminalEvent(cfg, mid, j, now).value;
  }

  /** What a reservation request may do to a detached job. */
  lemma ReserveEffect(
    cfg: Config, s0: State, s: State, j: JobId, dailyLimit: int, cost: nat, worker: WorkerId, token: Token,
    duration: nat, now: Time)
    returns (s': State)
    requires ValidConfig(cfg) && Detached(cfg, s, j) && s.jobs[j].cancelRequestedAt == None && cost > 0
    ensures s' == ReserveAndGrant(cfg, s0, s, j, dailyLimit, cost, worker, token, duration, now).0
    ensures s' != s0 ==> JobMoved(s, s', j)
  {
    s' := ReserveAndGrant(cfg, s0, s, j, dailyLimit, cost, worker, token, duration, now).0;
    assert JobFields(s.jobs[j]);
    match ReserveDaily(s.ledger, DayKey(s.jobs[j].tenant, DayOf(now)), dailyLimit, cost)
    case Refused =>
    case Impossible =>
      FailureCodesAreValid();
      var _ := TerminateEffect(cfg, s, j, Failed, Some("DAILY_EXECUTION_LIMIT_TOO_LOW"), now);
    case Deferred(ledger) =>
    case Allowed(ledger) =>
  }

  lemma SameStateAdvances(s: State)
    ensures Advances(s, s)
  {
  }

  /** A recovery is an expiry followed by one rewrite of the same job. */
  lemma RecoveryAdvances(s: State, s1: State, s': State, j: JobId, now: Time)
    requires j in s.jobs && s.jobs[j].status == Running && HasRunningAttempt(s, j)
    requires j !in s.outbox && AttemptKey(j, s.jobs[j].attemptNo + 1) !in s.attempts
    requires
      var k := AttemptKey(j, s.jobs[j].attemptNo);
      && s1.jobs == Wake(s.jobs, s.attempts[k].tenant, s.attempts[k].day, now) && s1.jobs[j] == s.jobs[j]
      && k in s1.attempts && s1.attempts == s.attempts[k := s1.attempts[k]]
      && s1.outbox == s.outbox && s1.retired == s.retired && s1.nextJobId == s.nextJobId
    requires JobMoved(s1, s', j)
    ensures Advances(s, s')
  {
    var k := AttemptKey(j, s.jobs[j].attemptNo);
    TransactionAdvances(s, s', j, s.attempts[k].tenant, s.attempts[k].day, now, {k});
  }

  lemma RecoverAdvances(cfg: Config, s: State, j: JobId, tenant: Tenant, cost: nat, worker: WorkerId, token: Token,
                        duration: nat, now: Time)
    requires ValidConfig(cfg) && Inv(cfg, s) && j in s.jobs && s.jobs[j].status == Running && cost > 0
    ensures Advances(s, RecoverExpired(cfg, s, j, tenant, cost, worker, token, duration, now).0)
  {
    var s' := RecoverExpired(cfg, s, j, tenant, cost, worker, token, duration, now).0;
    var s1 := ExpireEffect(cfg, s, j, now);
    assert JobFields(s.jobs[j]);
    LiveJob(cfg, s, j);
    RecoveryMoves(cfg, s, s1, j, tenant, cost, worker, token, duration, now, s');
    if s' == s {
      SameStateAdvances(s);
    } else {
      RecoveryAdvances(s, s1, s', j, now);
    }
  }

  lemma RecoveryMoves(
    cfg: Config, s: State, s1: State, j: JobId, tenant: Tenant, cost: nat, worker: WorkerId, token: Token,
    duration: nat, now: Time, s': State)
    requires ValidConfig(cfg) && j in s.jobs && JobFields(s.jobs[j]) && s.jobs[j].status == Running && cost > 0
    requires ExpireAttempt(s, s.jobs[j].tenant, AttemptKey(j, s.jobs[j].attemptNo), now) == Some(s1)
    requires Detached(cfg, s1, j) && s1.jobs[j] == s.jobs[j]
    requires s' == RecoverExpired(cfg, s, j, tenant, cost, worker, token, duration, now).0
    ensures s' == s || JobMoved(s1, s', j)
  {
    var job := s.jobs[j];
    FailureCodesAreValid();
    if !tenant.active {
      var _ := TerminateEffect(cfg, s1, j, Failed, Some("TENANT_DISABLED"), now);
    } else if job.cancelRequestedAt.Some? {
      var _ := TerminateEffect(cfg, s1, j, Cancelled, None, now);
    } else if job.attemptNo >= tenant.policy.maxInfrastructureTries {
      var _ := TerminateEffect(cfg, s1, j, Failed, Some("LEASE_EXPIRED"), now);
    } else {
      var _ := ReserveEffect(cfg, s, s1, j, tenant.policy.dailyExecutionMillis, cost, worker, token, duration, now);
    }
  }

  lemma ClaimAdvances(cfg: Config, s: State, j: JobId, worker: WorkerId, token: Token, duration: nat, now: Time)
    requires ValidConfig(cfg) && Inv(cfg, s)
    ensures Advances(s, ClaimOne(cfg, s, j, worker, token, duration, now).0)
  {
    var s' := ClaimOne(cfg, s, j, worker, token, duration, now).0;
    if s' == s {
      SameStateAdvances(s);
    } else {
      var cost := MaximumExecutionMillis(s.jobs[j].limits).value;
      var tenant := s.tenants[s.jobs[j].tenant];
      assert JobFields(s.jobs[j]);
      if s.jobs[j].status == Running {
        RecoverAdvances(cfg, s, j, tenant, cost, worker, token, duration, now);
      } else {
        QueuedJobIsDetached(cfg, s, j);
        var t := ReserveEffect(cfg, s, s, j, tenant.policy.dailyExecutionMillis, cost, worker, token, duration, now);
        LiveJob(cfg, s, j);
        TransactionAdvances(s, s', j, s.jobs[j].tenant, 0, now, {});
      }
    }
  }

  lemma SettlementAdvances(
    s: State, c: WorkerClaim, row: Job, charge: nat, status: AttemptStatus, code: Option<string>, now: Time, mid: State,
    s': State)
    requires c.job in s.jobs && s.jobs[c.job].status == Running && s.jobs[c.job].attemptNo == c.attemptNo
    requires c.job !in s.outbox && HasRunningAttempt(s, c.job)
    requires SettledBy(s, mid, c, row, charge, status, code, now) && JobAdvances(s.jobs[c.job], row)
    requires c.job in mid.jobs && if Terminal(row.status) then Announced(mid, s', c.job) else s' == mid
    ensures Advances(s, s')
  {
    var k := AttemptKey(c.job, c.attemptNo);
    var a := s.attempts[k];
    WokenAdvances(row, a.tenant, a.day, now);
    TransactionAdvances(s, s', c.job, a.tenant, a.day, now, {k});
  }

  /** A settlement by the owner of the fence, from end to end. */
  lemma SettleAdvances(
    cfg: Config, s: State, c: WorkerClaim, row: Job, cases: seq<DurableCaseResult>, full: bool,
    status: AttemptStatus, code: Option<string>, announce: bool, now: Time)
    requires ValidConfig(cfg) && Inv(cfg, s) && MeasuredTimes(cases)
    requires c.job in s.jobs && s.jobs[c.job].status == Running && s.jobs[c.job].attemptNo == c.attemptNo
    requires s.jobs[c.job].lease.Some?
    requires s.jobs[c.job].lease.value.worker == c.worker && s.jobs[c.job].lease.value.token == c.token
    requires c.tenant == s.jobs[c.job].tenant && status != AttemptRunning
    requires JobFields(row) && KeepsIdentity(s.jobs[c.job], row) && JobAdvances(s.jobs[c.job], row)
    requires if announce then Terminal(row.status) else row.status == Queued
    ensures
      var s1 := s.(jobs := s.jobs[c.job := row]);
      Advances(s, SettleClaim(cfg, s, s1, c, cases, full, status, code, announce, now).0)
  {
    var s1 := s.(jobs := s.jobs[c.job := row]);
    LiveJob(cfg, s, c.job);
    var mid := SettleCommits(cfg, s, c, row, cases, full, status, code, announce, now);
    var charge := Charge(s.attempts[AttemptKey(c.job, c.attemptNo)].reserved, cases, full);
    SettlementAdvances(s, c, row, charge, status, code, now, mid,
                       SettleClaim(cfg, s, s1, c, cases, full, status, code, announce, now).0);
  }

  lemma CompleteAdvances(cfg: Config, s: State, c: WorkerClaim, result: DurableJobResult, now: Time, lockNow: Time)
    requires ValidConfig(cfg) && Inv(cfg, s)
    ensures Advances(s, CompleteTx(cfg, s, c, result, now, lockNow).0)
  {
    var s' := CompleteTx(cfg, s, c, result, now, lockNow).0;
    if ValidResult(result) && ActiveClaim(s, c, lockNow) && c.tenant == s.jobs[c.job].tenant {
      var job := s.jobs[c.job];
      assert JobFields(job);
      var cancelled := job.cancelRequestedAt.Some?;
      var full := |result.cases| == 0 && (cancelled || result.compileStatus == "FAILED");
      var status := if cancelled then AttemptCancelled else AttemptSucceeded;
      var row := CompletedJob(job, result, now);
      SettleAdvances(cfg, s, c, row, result.cases, full, status, None, true, now);
    } else {
      ForeignTenantIsRejected(cfg, s, c);
      SameStateAdvances(s);
    }
  }

  /** A claim that names another tenant than its job's never settles anything. */
  lemma ForeignTenantIsRejected(cfg: Config, s: State, c: WorkerClaim)
    requires Inv(cfg, s)
    ensures c.job in s.jobs && c.tenant != s.jobs[c.job].tenant ==>
              forall jobs, now, cases, full | MeasuredTimes(cases) ::
                ReleaseReservation(s.(jobs := jobs), c.tenant, AttemptKey(c.job, c.attemptNo), now, cases, full) == None
  {
  }

  lemma FailedJobAdvances(job: Job, c: WorkerClaim, f: InfrastructureFailure, tries: int, now: Time)
    requires JobFields(job) && job.status == Running && ValidFailure(f)
    ensures
      var d := Disposition(job, c, f, tries);
      var row := FailedJob(job, d, f, now);
      && JobFields(row) && KeepsIdentity(job, row) && JobAdvances(job, row)
      && if d != Requeued then Terminal(row.status) else row.status == Queued
  {
  }

  lemma FailureAdvances(
    cfg: Config, s: State, c: WorkerClaim, f: InfrastructureFailure, now: Time, lockNow: Time, s': State)
    requires ValidConfig(cfg) && Inv(cfg, s) && s' == FailTx(cfg, s, c, f, now, lockNow).0
    requires ValidFailure(f) && ActiveClaim(s, c, lockNow) && c.tenant == s.jobs[c.job].tenant
    requires ValidPolicy(s.tenants[s.jobs[c.job].tenant].policy)
    ensures Advances(s, s')
  {
    var job := s.jobs[c.job];
    assert JobFields(job);
    var d := Disposition(job, c, f, s.tenants[job.tenant].policy.maxInfrastructureTries);
    var status := if d == CancelledFailure then AttemptCancelled else AttemptFailed;
    var code := if d == CancelledFailure then None else Some(f.code);
    var row := FailedJob(job, d, f, now);
    FailedJobAdvances(job, c, f, s.tenants[job.tenant].policy.maxInfrastructureTries, now);
    SettleAdvances(cfg, s, c, row, [], f.chargeFull, status, code, d != Requeued, now);
  }

  lemma FailAdvances(cfg: Config, s: State, c: WorkerClaim, f: InfrastructureFailure, now: Time, lockNow: Time)
    requires ValidConfig(cfg) && Inv(cfg, s)
    ensures Advances(s, FailTx(cfg, s, c, f, now, lockNow).0)
  {
    var s' := FailTx(cfg, s, c, f, now, lockNow).0;
    if && ValidFailure(f) && ActiveClaim(s, c, lockNow) && c.tenant == s.jobs[c.job].tenant
       && ValidPolicy(s.tenants[s.jobs[c.job].tenant].policy)
    {
      FailureAdvances(cfg, s, c, f, now, lockNow, s');
    } else {
      ForeignTenantIsRejected(cfg, s, c);
      SameStateAdvances(s);
    }
  }

  lemma QueuedCancelAdvances(cfg: Config, s: State, j: JobId, now: Time, row: Job, s': State)
    requires ValidConfig(cfg) && Inv(cfg, s) && j in s.jobs && s.jobs[j].status == Queued
    requires row == s.jobs[j].(
      status := Cancelled, cancelRequestedAt := Some(now), completedAt := Some(now), lease := None, deferredDay := None)
    requires InsertTerminalEvent(cfg, s.(jobs := s.jobs[j := row]), j, now) == Some(s')
    ensures Advances(s, s')
  {
    assert JobFields(s.jobs[j]);
    QueuedJobIsDetached(cfg, s, j);
    PutRow(cfg, s, j, row);
    EventIsInserted(cfg, s.(jobs := s.jobs[j := row]), j, now);
    LiveJob(cfg, s, j);
    TransactionAdvances(s, s', j, row.tenant, 0, now, {});
  }

  lemma CancelAdvances(cfg: Config, s: State, tenant: TenantId, j: JobId, now: Time)
    requires ValidConfig(cfg) && Inv(cfg, s)
    ensures Advances(s, CancelTx(cfg, s, tenant, j, now).0)
  {
    var s' := CancelTx(cfg, s, tenant, j, now).0;
    if s' == s {
      SameStateAdvances(s);
    } else if s.jobs[j].status == Queued {
      var row := s.jobs[j].(
        status := Cancelled, cancelRequestedAt := Some(now), completedAt := Some(now), lease := None,
        deferredDay := None);
      QueuedCancelAdvances(cfg, s, j, now, row, s');
    } else {
      LiveJob(cfg, s, j);
      TransactionAdvances(s, s', j, tenant, 0, now, {});
    }
  }

  lemma HeartbeatAdvances(cfg: Config, s: State, c: WorkerClaim, duration: nat, now: Time)
    requires Inv(cfg, s)
    ensures Advances(s, HeartbeatTx(s, c, duration, now).0)
  {
    var s' := HeartbeatTx(s, c, duration, now).0;
    if s' == s {
      SameStateAdvances(s);
    } else {
      LiveJob(cfg, s, c.job);
      TransactionAdvances(s, s', c.job, c.tenant, 0, now, {AttemptKey(c.job, c.attemptNo)});
    }
  }

  /** Adding a new job, or removing a terminal one without an event, moves nothing else. */
  lemma RowAddedAdvances(cfg: Config, s: State, s': State, job: Job)
    requires Inv(cfg, s)
    requires s'.jobs == s.jobs[s.nextJobId := job] && s'.nextJobId == s.nextJobId + 1
    requires s'.attempts == s.attempts && s'.retired == s.retired && s'.outbox == s.outbox
    ensures Advances(s, s')
  {
    forall j | j in s'.jobs && j < s.nextJobId ensures j in s.jobs && JobAdvances(s.jobs[j], s'.jobs[j]) {}
  }

  lemma EnqueueAdvances(
    cfg: Config, s: State, tenant: TenantId, limits: ExecutionLimits, callback: Option<CallbackId>, source: SourceId,
    hash: RequestHash, now: Time)
    requires Inv(cfg, s)
    ensures Advances(s, EnqueueTx(s, tenant, limits, callback, source, hash, now).0)
  {
    var r := EnqueueTx(s, tenant, limits, callback, source, hash, now);
    if r.1.Enqueued? {
      RowAddedAdvances(cfg, s, r.0, NewJob(tenant, limits, callback, source, hash, now));
    } else {
      SameStateAdvances(s);
    }
  }

  lemma RetiredJobAdvances(cfg: Config, s: State, s': State, j: JobId)
    requires Inv(cfg, s) && Retirable(s, j) && s' == RetireTx(s, j)
    ensures JobsAdvance(s, s') && Announces(s, s')
  {
  }

  lemma RetiredAttemptsAdvance(cfg: Config, s: State, s': State, j: JobId)
    requires RetiredOk(s) && Retirable(s, j) && s' == RetireTx(s, j)
    ensures AttemptsAdvance(s, s')
  {
  }

  lemma RetireAdvances(cfg: Config, s: State, j: JobId)
    requires Inv(cfg, s)
    ensures Advances(s, RetireTx(s, j))
  {
    if Retirable(s, j) {
      RetiredJobAdvances(cfg, s, RetireTx(s, j), j);
      RetiredAttemptsAdvance(cfg, s, RetireTx(s, j), j);
    } else {
      SameStateAdvances(s);
    }
  }

  lemma DeliverAdvances(cfg: Config, s: State, delivery: Outbox.Step)
    requires Inv(cfg, s)
    ensures Advances(s, s.(outbox := Outbox.Apply(s.outbox, delivery, cfg.webhookMaxAttempts)))
  {
    Outbox.StepKeepsRowsOk(s.outbox, delivery, cfg.webhookMaxAttempts);
    SameStateAdvances(s);
  }

  /** Every step moves every row forward only. */
  lemma StepAdvances(cfg: Config, s: State, step: Step)
    requires ValidConfig(cfg) && Inv(cfg, s)
    ensures Advances(s, Apply(cfg, s, step))
  {
    match step
    case EnqueueStep(tenant, limits, callback, source, hash, now) => EnqueueAdvances(
      cfg, s, tenant, limits, callback, source, hash, now);
    case ClaimStep(job, worker, token, duration, now) => ClaimAdvances(cfg, s, job, worker, token, duration, now);
    case HeartbeatStep(claim, duration, now) => HeartbeatAdvances(cfg, s, claim, duration, now);
    case CompleteStep(claim, result, now, lockNow) => CompleteAdvances(cfg, s, claim, result, now, lockNow);
    case FailStep(claim, failure, now, lockNow) => FailAdvances(cfg, s, claim, failure, now, lockNow);
    case CancelStep(tenant, job, now) => CancelAdvances(cfg, s, tenant, job, now);
    case RetireStep(job) => RetireAdvances(cfg, s, job);
    case DeliverStep(delivery) => DeliverAdvances(cfg, s, delivery);
    case TenantStep(tenant, row) => SameStateAdvances(s);
  }

  predicate SameJobs(s: State, s': State)
  {
    s'.jobs.Keys == s.jobs.Keys && s'.nextJobId == s.nextJobId
  }

  lemma EventKeepsJobs(cfg: Config, s: State, j: JobId, now: Time)
    ensures InsertTerminalEvent(cfg, s, j, now).Some? ==> SameJobs(s, InsertTerminalEvent(cfg, s, j, now).value)
  {
  }

  lemma TerminateKeepsJobs(
    cfg: Config, s: State, j: JobId, status: JobStatus, result: Option<DurableJobResult>, code: Option<string>,
    now: Time)
    requires j in s.jobs
    ensures Terminate(cfg, s, j, status, result, code, now).Some? ==>
      SameJobs(s, Terminate(cfg, s, j, status, result, code, now).value)
  {
  }

  lemma ReserveKeepsJobs(
    cfg: Config, s0: State, s: State, j: JobId, dailyLimit: int, cost: nat, worker: WorkerId, token: Token,
    duration: nat, now: Time)
    requires j in s.jobs && SameJobs(s0, s)
    ensures SameJobs(s0, ReserveAndGrant(cfg, s0, s, j, dailyLimit, cost, worker, token, duration, now).0)
  {
    TerminateKeepsJobs(cfg, s, j, Failed, s.jobs[j].result, Some("DAILY_EXECUTION_LIMIT_TOO_LOW"), now);
  }

  lemma RecoverKeepsJobs(cfg: Config, s: State, j: JobId, tenant: Tenant, cost: nat, worker: WorkerId, token: Token,
                         duration: nat, now: Time)
    requires j in s.jobs
    ensures SameJobs(s, RecoverExpired(cfg, s, j, tenant, cost, worker, token, duration, now).0)
  {
    var job := s.jobs[j];
    var r := ExpireAttempt(s, job.tenant, AttemptKey(j, job.attemptNo), now);
    if r.Some? {
      assert SameJobs(s, r.value);
      TerminateKeepsJobs(cfg, r.value, j, Failed, job.result, Some("TENANT_DISABLED"), now);
      TerminateKeepsJobs(cfg, r.value, j, Cancelled, None, None, now);
      TerminateKeepsJobs(cfg, r.value, j, Failed, job.result, Some("LEASE_EXPIRED"), now);
      ReserveKeepsJobs(cfg, s, r.value, j, tenant.policy.dailyExecutionMillis, cost, worker, token, duration, now);
    }
  }

  lemma ClaimKeepsJobs(cfg: Config, s: State, j: JobId, worker: WorkerId, token: Token, duration: nat, now: Time)
    ensures SameJobs(s, ClaimOne(cfg, s, j, worker, token, duration, now).0)
  {
    if j in s.jobs && s.jobs[j].tenant in s.tenants && MaximumExecutionMillis(s.jobs[j].limits).Some? {
      var cost := MaximumExecutionMillis(s.jobs[j].limits).value;
      var tenant := s.tenants[s.jobs[j].tenant];
      RecoverKeepsJobs(cfg, s, j, tenant, cost, worker, token, duration, now);
      ReserveKeepsJobs(cfg, s, s, j, tenant.policy.dailyExecutionMillis, cost, worker, token, duration, now);
    }
  }

  lemma SettleKeepsJobs(cfg: Config, s0: State, s: State, c: WorkerClaim, cases: seq<DurableCaseResult>, full: bool,
                        status: AttemptStatus, code: Option<string>, announce: bool, now: Time)
    requires MeasuredTimes(cases) && SameJobs(s0, s)
    ensures SameJobs(s0, SettleClaim(cfg, s0, s, c, cases, full, status, code, announce, now).0)
  {
  }

  lemma CompleteKeepsJobs(cfg: Config, s: State, c: WorkerClaim, result: DurableJobResult, now: Time, lockNow: Time)
    ensures SameJobs(s, CompleteTx(cfg, s, c, result, now, lockNow).0)
  {
    if ValidResult(result) && ActiveClaim(s, c, lockNow) {
      var cancelled := s.jobs[c.job].cancelRequestedAt.Some?;
      SettleKeepsJobs(cfg, s, s.(jobs := s.jobs[c.job := CompletedJob(s.jobs[c.job], result, now)]), c, result.cases,
                      |result.cases| == 0 && (cancelled || result.compileStatus == "FAILED"),
                      if cancelled then AttemptCancelled else AttemptSucceeded, None, true, now);
    }
  }

  lemma FailKeepsJobs(cfg: Config, s: State, c: WorkerClaim, f: InfrastructureFailure, now: Time, lockNow: Time)
    ensures SameJobs(s, FailTx(cfg, s, c, f, now, lockNow).0)
  {
    if ValidFailure(f) && ActiveClaim(s, c, lockNow) && s.jobs[c.job].tenant in s.tenants {
      var d := Disposition(s.jobs[c.job], c, f, s.tenants[s.jobs[c.job].tenant].policy.maxInfrastructureTries);
      SettleKeepsJobs(cfg, s, s.(jobs := s.jobs[c.job := FailedJob(s.jobs[c.job], d, f, now)]), c, [], f.chargeFull,
                      if d == CancelledFailure then AttemptCancelled else AttemptFailed,
                      if d == CancelledFailure then None else Some(f.code), d != Requeued, now);
    }
  }

  lemma CancelKeepsJobs(cfg: Config, s: State, tenant: TenantId, j: JobId, now: Time)
    ensures SameJobs(s, CancelTx(cfg, s, tenant, j, now).0)
  {
    if j in s.jobs {
      EventKeepsJobs(cfg, s.(jobs := s.jobs[j := s.jobs[j].(status := Cancelled, cancelRequestedAt := Some(now),
                     completedAt := Some(now), lease := None, deferredDay := None)]), j, now);
    }
  }

  /** Jobs come from submissions and go by retention only. */
  lemma OtherStepsKeepJobs(cfg: Config, s: State, step: Step)
    requires !step.EnqueueStep? && !step.RetireStep?
    ensures SameJobs(s, Apply(cfg, s, step))
  {
    match step
    case ClaimStep(job, worker, token, duration, now) => ClaimKeepsJobs(cfg, s, job, worker, token, duration, now);
    case HeartbeatStep(claim, duration, now) =>
    case CompleteStep(claim, result, now, lockNow) => CompleteKeepsJobs(cfg, s, claim, result, now, lockNow);
    case FailStep(claim, failure, now, lockNow) => FailKeepsJobs(cfg, s, claim, failure, now, lockNow);
    case CancelStep(tenant, job, now) => CancelKeepsJobs(cfg, s, tenant, job, now);
    case DeliverStep(delivery) =>
    case TenantStep(tenant, row) =>
  }
}
