/** A queued job is not started before it is due, whatever else happens in the meantime. */
module JobDueTimes {
  import opened Events
  import opened JobModel
  import opened JobInvariants
  import opened JobSteps
  import opened JobRuns
  import opened JobTheorems
  import opened JobClaims
  import opened JobAnswers

  /** Due times at midnight are those of deferred jobs, which a settlement may bring forward. */
  predicate AtMidnight(t: Time)
  {
    t % DAY == 0
  }

  lemma OnlyMidnightIsWoken(job: Job, t: TenantId, d: Day, now: Time)
    requires !AtMidnight(job.nextAttemptAt)
    ensures WakeJob(job, t, d, now) == job
  {
    assert EndOfDay(d) % DAY == 0;
  }

  /** The step does not claim job `j` at or after time `due`. */
  predicate NoClaimFrom(step: Step, j: JobId, due: Time)
  {
    step.ClaimStep? && step.job == j ==> step.now < due
  }

  predicate NoClaimsFrom(steps: seq<Step>, j: JobId, due: Time)
  {
    forall i :: 0 <= i < |steps| ==> NoClaimFrom(steps[i], j, due)
  }

  /** The job is not running; if it is queued, it is due at `due`. */
  predicate NotStarted(s: State, j: JobId, due: Time)
  {
    j in s.jobs ==> s.jobs[j].status != Running && (s.jobs[j].status == Queued ==> s.jobs[j].nextAttemptAt == due)
  }

  predicate OverOrDue(job: Job, due: Time)
  {
    Terminal(job.status) || (job.status == Queued && job.nextAttemptAt == due)
  }

  predicate Waiting(s: State, j: JobId)
  {
    j in s.jobs && s.jobs[j].status == Queued && !AtMidnight(s.jobs[j].nextAttemptAt)
  }

  /** The row is as it was, or the job was cancelled. */
  predicate StillWaiting(s: State, s': State, j: JobId)
    requires j in s.jobs
  {
    j in s'.jobs && (s'.jobs[j] == s.jobs[j] || s'.jobs[j].status == Cancelled)
  }

  lemma ClaimLeavesOthers(
    cfg: Config, s: State, i: JobId, worker: WorkerId, token: Token, duration: nat, now: Time, j: JobId)
    requires ValidConfig(cfg) && Inv(cfg, s) && Waiting(s, j) && i != j
    ensures StillWaiting(s, ClaimOne(cfg, s, i, worker, token, duration, now).0, j)
  {
    var s' := ClaimOne(cfg, s, i, worker, token, duration, now).0;
    if s' != s {
      var cost := MaximumExecutionMillis(s.jobs[i].limits).value;
      var tenant := s.tenants[s.jobs[i].tenant];
      assert JobFields(s.jobs[i]);
      if s.jobs[i].status == Running {
        RecoveryLeavesOthers(cfg, s, i, tenant, cost, worker, token, duration, now, j, s');
      } else {
        QueuedJobIsDetached(cfg, s, i);
        var _ := ReserveEffect(cfg, s, s, i, tenant.policy.dailyExecutionMillis, cost, worker, token, duration, now);
      }
    }
  }

  lemma RecoveryLeavesOthers(
    cfg: Config, s: State, i: JobId, tenant: Tenant, cost: nat, worker: WorkerId, token: Token, duration: nat,
    now: Time, j: JobId, s': State)
    requires ValidConfig(cfg) && Inv(cfg, s) && Waiting(s, j) && i != j && cost > 0
    requires i in s.jobs && s.jobs[i].status == Running
    requires s' == RecoverExpired(cfg, s, i, tenant, cost, worker, token, duration, now).0
    ensures StillWaiting(s, s', j)
  {
    assert JobFields(s.jobs[i]);
    var s1 := ExpireEffect(cfg, s, i, now);
    RecoveryMoves(cfg, s, s1, i, tenant, cost, worker, token, duration, now, s');
    if s' != s {
      var a := s.attempts[AttemptKey(i, s.jobs[i].attemptNo)];
      MoveLeavesOthers(s, s1, s', i, a.tenant, a.day, now, j);
    }
  }

  lemma MoveLeavesOthers(
    s: State, s1: State, s': State, i: JobId, t: TenantId, d: Day, now: Time, j: JobId)
    requires Waiting(s, j) && i != j && s1.jobs == Wake(s.jobs, t, d, now)
    requires i in s1.jobs && i in s'.jobs && s'.jobs == s1.jobs[i := s'.jobs[i]]
    ensures StillWaiting(s, s', j)
  {
    OnlyMidnightIsWoken(s.jobs[j], t, d, now);
  }

  lemma SettlementLeavesOthers(
    s: State, s': State, k: AttemptKey, charge: nat, status: AttemptStatus, now: Time, j: JobId)
    requires k in s.attempts && Paid(s, s', k, charge, status, now) && Waiting(s, j) && k.job != j
    ensures StillWaiting(s, s', j)
  {
    OnlyMidnightIsWoken(s.jobs[j], s.attempts[k].tenant, s.attempts[k].day, now);
  }

  lemma CompletionLeavesOthers(
    cfg: Config, s: State, c: WorkerClaim, result: Results.DurableJobResult, now: Time, lockNow: Time, j: JobId)
    requires ValidConfig(cfg) && Inv(cfg, s) && Waiting(s, j)
    ensures StillWaiting(s, CompleteTx(cfg, s, c, result, now, lockNow).0, j)
  {
    var r := CompleteTx(cfg, s, c, result, now, lockNow);
    CompletionAnswer(cfg, s, c, result, now, lockNow);
    if r.1 == Done {
      var k := AttemptKey(c.job, c.attemptNo);
      var cancelled := s.jobs[c.job].cancelRequestedAt.Some?;
      SettlementLeavesOthers(s, r.0, k, ResultCharge(s.attempts[k].reserved, cancelled, result),
                             if cancelled then AttemptCancelled else AttemptSucceeded, now, j);
    }
  }

  lemma FailureLeavesOthers(
    cfg: Config, s: State, c: WorkerClaim, f: InfrastructureFailure, now: Time, lockNow: Time, j: JobId)
    requires ValidConfig(cfg) && Inv(cfg, s) && Waiting(s, j)
    ensures StillWaiting(s, FailTx(cfg, s, c, f, now, lockNow).0, j)
  {
    var r := FailTx(cfg, s, c, f, now, lockNow);
    FailureAnswer(cfg, s, c, f, now, lockNow);
    if r.1 == Done {
      var k := AttemptKey(c.job, c.attemptNo);
      SettlementLeavesOthers(s, r.0, k, if f.chargeFull then s.attempts[k].reserved else 0,
                             if s.jobs[c.job].cancelRequestedAt.Some? then AttemptCancelled else AttemptFailed, now, j);
    }
  }

  lemma StepKeepsWaiting(cfg: Config, s: State, step: Step, j: JobId)
    requires ValidConfig(cfg) && Inv(cfg, s) && Waiting(s, j) && NoClaimFrom(step, j, s.jobs[j].nextAttemptAt)
    ensures StillWaiting(s, Apply(cfg, s, step), j)
  {
    match step
    case ClaimStep(job, worker, token, duration, now) =>
      if job == j {
        NotDueIsLeftAlone(cfg, s, j, worker, token, duration, now);
      } else {
        ClaimLeavesOthers(cfg, s, job, worker, token, duration, now, j);
      }
    case HeartbeatStep(claim, duration, now) => HeartbeatLeavesOthers(cfg, s, claim, duration, now, j);
    case CompleteStep(claim, result, now, lockNow) => CompletionLeavesOthers(cfg, s, claim, result, now, lockNow, j);
    case FailStep(claim, failure, now, lockNow) => FailureLeavesOthers(cfg, s, claim, failure, now, lockNow, j);
    case CancelStep(tenant, job, now) => CancelLeavesOthers(cfg, s, tenant, job, now, j);
    case _ => OtherStepKeepsWaiting(cfg, s, step, j);
  }

  lemma HeartbeatLeavesOthers(cfg: Config, s: State, c: WorkerClaim, duration: nat, now: Time, j: JobId)
    requires Inv(cfg, s) && Waiting(s, j)
    ensures StillWaiting(s, HeartbeatTx(s, c, duration, now).0, j)
  {
    HeartbeatAnswer(cfg, s, c, duration, now);
  }

  lemma CancelLeavesOthers(cfg: Config, s: State, tenant: TenantId, i: JobId, now: Time, j: JobId)
    requires ValidConfig(cfg) && Inv(cfg, s) && Waiting(s, j)
    ensures StillWaiting(s, CancelTx(cfg, s, tenant, i, now).0, j)
  {
    CancelAnswer(cfg, s, tenant, i, now);
  }

  lemma OtherStepKeepsWaiting(cfg: Config, s: State, step: Step, j: JobId)
    requires JobRowsOk(s) && Waiting(s, j)
    requires step.EnqueueStep? || step.RetireStep? || step.DeliverStep? || step.TenantStep?
    ensures StillWaiting(s, Apply(cfg, s, step), j)
  {
    assert s.nextJobId !in s.jobs;
  }

  /**
   * Unless it is claimed at or after its due time, a queued job stays as it is, through every run, or is cancelled. Due
   * times at midnight are excepted: a settlement may bring them forward.
   */
  lemma {:induction false} NotStartedBeforeDue(cfg: Config, s: State, steps: seq<Step>, j: JobId)
    requires ValidConfig(cfg) && Inv(cfg, s) && Waiting(s, j)
    requires NoClaimsFrom(steps, j, s.jobs[j].nextAttemptAt)
    ensures
      var s' := Run(cfg, s, steps);
      j in s'.jobs ==> s'.jobs[j] == s.jobs[j] || s'.jobs[j].status == Cancelled
    decreases |steps|
  {
    if steps != [] {
      var s1 := Apply(cfg, s, steps[0]);
      StepKeepsWaiting(cfg, s, steps[0], j);
      StepKeepsInv(cfg, s, steps[0]);
      if s1.jobs[j].status == Cancelled {
        TerminalJobsAreFinal(cfg, s1, steps[1..], j);
      } else {
        NotStartedBeforeDue(cfg, s1, steps[1..], j);
      }
    }
  }

  /** A failed attempt that is tried again waits for the whole delay it was given. */
  lemma RetryDelayIsKept(
    cfg: Config, s: State, c: WorkerClaim, f: InfrastructureFailure, now: Time, lockNow: Time, s1: State,
    steps: seq<Step>, due: Time)
    requires ValidConfig(cfg) && Inv(cfg, s) && FailTx(cfg, s, c, f, now, lockNow) == (s1, Done)
    requires due == now + f.retryDelay && !AtMidnight(due) && NoClaimsFrom(steps, c.job, due)
    ensures NotStarted(Run(cfg, s1, steps), c.job, due)
  {
    RetryIsDueLater(cfg, s, c, f, now, lockNow, s1, due);
    WaitsOrIsOver(cfg, s1, steps, c.job, due);
  }

  lemma WaitsOrIsOver(cfg: Config, s: State, steps: seq<Step>, j: JobId, due: Time)
    requires ValidConfig(cfg) && Inv(cfg, s) && j in s.jobs && !AtMidnight(due)
    requires OverOrDue(s.jobs[j], due)
    requires NoClaimsFrom(steps, j, due)
    ensures NotStarted(Run(cfg, s, steps), j, due)
  {
    if s.jobs[j].status == Queued {
      NotStartedBeforeDue(cfg, s, steps, j);
    } else {
      TerminalJobsAreFinal(cfg, s, steps, j);
    }
  }

  lemma RetryIsDueLater(
    cfg: Config, s: State, c: WorkerClaim, f: InfrastructureFailure, now: Time, lockNow: Time, s1: State, due: Time)
    requires ValidConfig(cfg) && Inv(cfg, s) && FailTx(cfg, s, c, f, now, lockNow) == (s1, Done)
    requires due == now + f.retryDelay && !AtMidnight(due)
    ensures Inv(cfg, s1) && c.job in s1.jobs && OverOrDue(s1.jobs[c.job], due)
  {
    FailKeepsInv(cfg, s, c, f, now, lockNow);
    FailureAnswer(cfg, s, c, f, now, lockNow);
    var day := s.attempts[AttemptKey(c.job, c.attemptNo)].day;
    var tries := s.tenants[s.jobs[c.job].tenant].policy.maxInfrastructureTries;
    FailedRowIsLater(s.jobs[c.job], day, c, f, tries, now, s1.jobs[c.job], due);
  }

  lemma FailedRowIsLater(
    job: Job, day: Day, c: WorkerClaim, f: InfrastructureFailure, tries: int, now: Time, after: Job, due: Time)
    requires FailedRow(job, day, c, f, tries, now, after) && due == now + f.retryDelay && !AtMidnight(due)
    ensures OverOrDue(after, due)
  {
    assert (day + 1) * DAY % DAY == 0;
  }
}
