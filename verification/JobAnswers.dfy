/** What heartbeat, completion, failure report and cancellation answer, and what they write, read off the rows. */
module JobAnswers {
  import opened Options
  import opened Events
  import opened Results
  import opened JobModel
  import opened JobInvariants
  import opened JobSteps
  import opened JobRuns
  import opened JobTheorems

  /** The worker still holds its job: the same attempt, its own lease, and time left. */
  predicate HoldsLease(s: State, c: WorkerClaim, now: Time)
  {
    && c.job in s.jobs
    && var job := s.jobs[c.job];
    && job.status == Running && job.attemptNo == c.attemptNo && job.lease.Some?
    && job.lease.value == Lease(c.worker, c.token, job.lease.value.until) && now < job.lease.value.until
  }

  lemma FenceIsLease(s: State, c: WorkerClaim, now: Time)
    ensures ActiveClaim(s, c, now) <==> HoldsLease(s, c, now)
  {
  }

  lemma HolderOwnsAttempt(cfg: Config, s: State, c: WorkerClaim, now: Time)
    requires Inv(cfg, s) && HoldsLease(s, c, now)
    ensures ActiveClaim(s, c, now) && AttemptOwned(s, c)
  {
    assert HasRunningAttempt(s, c.job) && AttemptOk(s, AttemptKey(c.job, c.attemptNo));
  }

  /** A heartbeat succeeds exactly for the holder of the lease, and moves both ends of it; else nothing changes. */
  lemma HeartbeatAnswer(cfg: Config, s: State, c: WorkerClaim, duration: nat, now: Time)
    requires Inv(cfg, s)
    ensures
      var r := HeartbeatTx(s, c, duration, now);
      var k := AttemptKey(c.job, c.attemptNo);
      && (r.1 == Done <==> 0 < duration <= 15 * MINUTE && HoldsLease(s, c, now))
      && (r.1 != Done ==> r == (s, Stale))
      && (r.1 == Done ==>
            && k in s.attempts
            && r.0 == s.(
                 jobs := s.jobs[c.job := s.jobs[c.job].(lease := Some(Lease(c.worker, c.token, now + duration)))],
                 attempts := s.attempts[k := s.attempts[k].(leaseUntil := now + duration)]))
  {
    FenceIsLease(s, c, now);
    if HoldsLease(s, c, now) {
      HolderOwnsAttempt(cfg, s, c, now);
    }
  }

  // ---------------------------------------------------------------- announcement

  /** The event of an ended job is due at once and may be delivered for the configured time. */
  lemma AnnouncementAnswer(cfg: Config, s: State, j: JobId, now: Time)
    requires ValidConfig(cfg) && Inv(cfg, s) && j in s.jobs && Terminal(s.jobs[j].status)
    requires j !in s.outbox && s.jobs[j].callback.Some?
    ensures
      var r := InsertTerminalEvent(cfg, s, j, now);
      && r.Some? && j in r.value.outbox && r.value == s.(outbox := s.outbox[j := r.value.outbox[j]])
      && var row := r.value.outbox[j];
      && row == Outbox.Row(s.jobs[j].tenant, s.jobs[j].callback.value, row.body, Outbox.Pending, 0, None, now, now,
                           now + cfg.webhookWindow, None, None, None, None)
      && row.body.job == j && row.body.tenant == s.jobs[j].tenant && row.body.status == s.jobs[j].status
      && row.body.result == s.jobs[j].result && row.body.failureCode == s.jobs[j].failureCode
  {
    EventIsInserted(cfg, s, j, now);
    EventsTellTheTruth(cfg, InsertTerminalEvent(cfg, s, j, now).value, j);
  }

  // ------------------------------------------------------------------ completion

  /** What an attempt is charged for a result: all of its reservation, or the measured time up to it. */
  function ResultCharge(reserved: nat, cancelled: bool, result: DurableJobResult): int
  {
    if result.cases == [] && (cancelled || result.compileStatus == "FAILED") then reserved
    else if TimeSum(result.cases) < reserved then TimeSum(result.cases)
    else reserved
  }

  /**
   * A completion is taken exactly from the holder of the lease. The job ends SUCCEEDED with the result, or CANCELLED
   * without one if somebody asked for that; the books are settled and the end is announced.
   */
  lemma CompletionAnswer(cfg: Config, s: State, c: WorkerClaim, result: DurableJobResult, now: Time, lockNow: Time)
    requires ValidConfig(cfg) && Inv(cfg, s)
    ensures
      var r := CompleteTx(cfg, s, c, result, now, lockNow);
      && (r.1 == Done <==> ValidResult(result) && HoldsLease(s, c, lockNow) && c.tenant == s.jobs[c.job].tenant)
      && (r.1 != Done ==> r.0 == s)
      && (r.1 == Done ==> CompletedBy(s, r.0, c, result, now))
  {
    FenceIsLease(s, c, lockNow);
    if ValidResult(result) && HoldsLease(s, c, lockNow) && c.tenant == s.jobs[c.job].tenant {
      CompletionCompletes(cfg, s, c, result, now, lockNow, CompleteTx(cfg, s, c, result, now, lockNow).0);
    } else {
      CompletionRefused(cfg, s, c, result, now, lockNow);
    }
  }

  ghost predicate CompletedBy(s: State, s': State, c: WorkerClaim, result: DurableJobResult, now: Time)
  {
    var k := AttemptKey(c.job, c.attemptNo);
    && c.job in s.jobs && c.job in s'.jobs && k in s.attempts
    && var job := s.jobs[c.job];
    && var cancelled := job.cancelRequestedAt.Some?;
    && s'.jobs[c.job] ==
         job.(status := if cancelled then Cancelled else Succeeded, result := if cancelled then None else Some(result),
              failureCode := None, completedAt := Some(now), lease := None, deferredDay := None)
    && 0 <= ResultCharge(s.attempts[k].reserved, cancelled, result)
    && Paid(s, s', k, ResultCharge(s.attempts[k].reserved, cancelled, result),
            if cancelled then AttemptCancelled else AttemptSucceeded, now)
    && (job.callback.Some? ==> c.job in s'.outbox && c.job !in s.outbox)
  }

  lemma ChargeIsMeasured(reserved: nat, cancelled: bool, result: DurableJobResult)
    requires MeasuredTimes(result.cases)
    ensures ResultCharge(reserved, cancelled, result) == CompletionCharge(reserved, cancelled, result)
  {
    TimeSumPrefix(result.cases, 0);
  }

  lemma CompletionCompletes(
    cfg: Config, s: State, c: WorkerClaim, result: DurableJobResult, now: Time, lockNow: Time, s': State)
    requires ValidConfig(cfg) && Inv(cfg, s) && ValidResult(result) && ActiveClaim(s, c, lockNow)
    requires c.tenant == s.jobs[c.job].tenant && s' == CompleteTx(cfg, s, c, result, now, lockNow).0
    ensures CompleteTx(cfg, s, c, result, now, lockNow).1 == Done && CompletedBy(s, s', c, result, now)
  {
    var k := AttemptKey(c.job, c.attemptNo);
    ValidResultIsMeasured(result);
    CompletionEffect(cfg, s, c, result, now, lockNow);
    ChargeIsMeasured(s.attempts[k].reserved, s.jobs[c.job].cancelRequestedAt.Some?, result);
    CompleteAdvances(cfg, s, c, result, now, lockNow);
    assert Ends(s, s', c.job);
  }

  // --------------------------------------------------------------------- failure

  /** The job's row after a failure: ended, or queued again after the delay. */
  predicate FailedRow(
    job: Job, day: Day, c: WorkerClaim, f: InfrastructureFailure, tries: int, now: Time, after: Job)
  {
    if job.cancelRequestedAt.Some? then
      after == job.(status := Cancelled, nextAttemptAt := now, failureCode := None, completedAt := Some(now),
                    lease := None, deferredDay := None)
    else if !f.permanent && c.attemptNo < tries then
      // A retry that would fall on the midnight of the attempt's day is taken for a deferred job, and woken.
      && now + f.retryDelay >= 0
      && after == job.(status := Queued, failureCode := None, completedAt := None, lease := None, deferredDay := None,
                       nextAttemptAt := if now + f.retryDelay == (day + 1) * DAY then now else now + f.retryDelay)
    else
      after == job.(status := Failed, nextAttemptAt := now, failureCode := Some(f.code), completedAt := Some(now),
                    lease := None, deferredDay := None)
  }

  ghost predicate FailedBy(s: State, s': State, c: WorkerClaim, f: InfrastructureFailure, now: Time)
  {
    var k := AttemptKey(c.job, c.attemptNo);
    && c.job in s.jobs && c.job in s'.jobs && k in s.attempts && s.jobs[c.job].tenant in s.tenants && k in s'.attempts
    && var job := s.jobs[c.job];
    && FailedRow(job, s.attempts[k].day, c, f, s.tenants[job.tenant].policy.maxInfrastructureTries, now, s'.jobs[c.job])
    && Paid(s, s', k, if f.chargeFull then s.attempts[k].reserved else 0,
            if job.cancelRequestedAt.Some? then AttemptCancelled else AttemptFailed, now)
    && s'.attempts[k].failureCode == (if job.cancelRequestedAt.Some? then None else Some(f.code))
    && (Terminal(s'.jobs[c.job].status) && job.callback.Some? ==> c.job in s'.outbox && c.job !in s.outbox)
  }

  /** A failure report is taken exactly from the holder of the lease; the row says what the report asks for. */
  lemma FailureAnswer(cfg: Config, s: State, c: WorkerClaim, f: InfrastructureFailure, now: Time, lockNow: Time)
    requires ValidConfig(cfg) && Inv(cfg, s)
    ensures
      var r := FailTx(cfg, s, c, f, now, lockNow);
      && (r.1 == Done <==>
            && ValidFailureCode(f.code) && 0 <= f.retryDelay <= HOUR && HoldsLease(s, c, lockNow)
            && c.tenant == s.jobs[c.job].tenant && c.tenant in s.tenants && ValidPolicy(s.tenants[c.tenant].policy))
      && (r.1 != Done ==> r.0 == s)
      && (r.1 == Done ==> FailedBy(s, r.0, c, f, now))
  {
    FenceIsLease(s, c, lockNow);
    if && ValidFailure(f) && HoldsLease(s, c, lockNow) && c.tenant == s.jobs[c.job].tenant
       && ValidPolicy(s.tenants[c.tenant].policy)
    {
      FailureFails(cfg, s, c, f, now, lockNow, FailTx(cfg, s, c, f, now, lockNow).0);
    } else {
      FailureRefused(cfg, s, c, f, now, lockNow);
    }
  }

  lemma FailureFails(
    cfg: Config, s: State, c: WorkerClaim, f: InfrastructureFailure, now: Time, lockNow: Time, s': State)
    requires ValidConfig(cfg) && Inv(cfg, s) && ValidFailure(f) && ActiveClaim(s, c, lockNow)
    requires c.tenant == s.jobs[c.job].tenant && ValidPolicy(s.tenants[c.tenant].policy)
    requires s' == FailTx(cfg, s, c, f, now, lockNow).0
    ensures FailTx(cfg, s, c, f, now, lockNow).1 == Done && FailedBy(s, s', c, f, now)
  {
    var k := AttemptKey(c.job, c.attemptNo);
    FailureEffect(cfg, s, c, f, now, lockNow);
    FailedRowIs(s.jobs[c.job], s.attempts[k], c, f, s.tenants[c.tenant].policy.maxInfrastructureTries, now);
    FailAdvances(cfg, s, c, f, now, lockNow);
    assert AttemptOk(s, k) && JobFields(s.jobs[c.job]);
    assert Terminal(s'.jobs[c.job].status) ==> Ends(s, s', c.job);
  }

  lemma FailedRowIs(job: Job, a: Attempt, c: WorkerClaim, f: InfrastructureFailure, tries: int, now: Time)
    requires ValidFailure(f) && a.tenant == job.tenant
    ensures FailedRow(job, a.day, c, f, tries, now,
                      WakeJob(FailedJob(job, Disposition(job, c, f, tries), f, now), a.tenant, a.day, now))
  {
  }

  // ---------------------------------------------------------------- cancellation

  /**
   * A cancellation of a live job is always accepted and recorded: a queued job is CANCELLED and announced at once, a
   * running one keeps its lease, an earlier cancellation its time. Nothing else changes.
   */
  lemma CancelAnswer(cfg: Config, s: State, tenant: TenantId, j: JobId, now: Time)
    requires ValidConfig(cfg) && Inv(cfg, s)
    ensures
      var r := CancelTx(cfg, s, tenant, j, now);
      if !(tenant in s.tenants && j in s.jobs && s.jobs[j].tenant == tenant) then r == (s, NotFound)
      else
        && r.1 == CancelAccepted && j in r.0.jobs
        && r.0 == s.(jobs := s.jobs[j := r.0.jobs[j]], outbox := r.0.outbox)
        && CancelledRow(s.jobs[j], now, r.0.jobs[j])
        && if s.jobs[j].status == Queued then EventWritten(s, r.0, j) else r.0.outbox == s.outbox
  {
    if tenant in s.tenants && j in s.jobs && s.jobs[j].tenant == tenant && s.jobs[j].status == Queued {
      QueuedCancel(cfg, s, tenant, j, now);
    }
  }

  predicate CancelledRow(job: Job, now: Time, after: Job)
  {
    match job.status
    case Queued =>
      after == job.(status := Cancelled, cancelRequestedAt := Some(now), completedAt := Some(now), lease := None,
                    deferredDay := None)
    case Running =>
      after == job.(
        cancelRequestedAt := if job.cancelRequestedAt.Some? then job.cancelRequestedAt else Some(now))
    case _ => after == job
  }

  lemma QueuedCancel(cfg: Config, s: State, tenant: TenantId, j: JobId, now: Time)
    requires ValidConfig(cfg) && Inv(cfg, s) && tenant in s.tenants && j in s.jobs && s.jobs[j].tenant == tenant
    requires s.jobs[j].status == Queued
    ensures
      var r := CancelTx(cfg, s, tenant, j, now);
      && r.1 == CancelAccepted && j in r.0.jobs && CancelledRow(s.jobs[j], now, r.0.jobs[j])
      && r.0 == s.(jobs := s.jobs[j := r.0.jobs[j]], outbox := r.0.outbox) && EventWritten(s, r.0, j)
  {
    assert JobFields(s.jobs[j]);
    var row := s.jobs[j].(
      status := Cancelled, cancelRequestedAt := Some(now), completedAt := Some(now), lease := None,
      deferredDay := None);
    QueuedJobIsDetached(cfg, s, j);
    PutRow(cfg, s, j, row);
    EventIsInserted(cfg, s.(jobs := s.jobs[j := row]), j, now);
  }

  /**
   * Once the cancellation of a live job was accepted, the job never ends SUCCEEDED, keeps no result and announces
   * none, and a worker that asks is told to stop, whatever runs afterwards.
   */
  lemma AcceptedCancelHolds(
    cfg: Config, s: State, tenant: TenantId, j: JobId, now: Time, steps: seq<Step>, c: WorkerClaim, asked: Time)
    requires ValidConfig(cfg) && Inv(cfg, s) && tenant in s.tenants && j in s.jobs && s.jobs[j].tenant == tenant
    requires !Terminal(s.jobs[j].status)
    ensures
      var s' := Run(cfg, CancelTx(cfg, s, tenant, j, now).0, steps);
      && (j in s'.jobs ==>
            && s'.jobs[j].cancelRequestedAt.Some? && s'.jobs[j].status != Succeeded && s'.jobs[j].status != Queued
            && s'.jobs[j].result == None)
      && (j in s'.outbox ==> s'.outbox[j].body.result == None && s'.outbox[j].body.status != Succeeded)
      && (c.job == j && HoldsLease(s', c, asked) ==> ClaimCancelled(s', c, asked) == Some(true))
  {
    var s1 := CancelTx(cfg, s, tenant, j, now).0;
    CancelAnswer(cfg, s, tenant, j, now);
    CancelKeepsInv(cfg, s, tenant, j, now);
    CancellationIsFinal(cfg, s1, steps, j);
  }
}
