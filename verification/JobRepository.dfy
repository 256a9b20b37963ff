/**
 * The job repository as the program runs it: transactions that update the tables in place, statement by statement, and
 * put everything back when a statement fails. Each one is proved to be its transaction function.
 */
module JobRepository {
  import opened Options
  import opened Events
  import opened Results
  import opened JobModel
  import opened JobInvariants
  import opened JobSteps
  import opened JobTheorems
  import Outbox

  const MAX_CLAIM_RETRIES: nat := 32

  /** What one round of the claim loop selects: a job, a fresh token and the transaction's clock. */
  datatype Selection = Selection(job: JobId, token: Token, now: Time)

  function ClaimSteps(picks: seq<Selection>, worker: WorkerId, duration: nat): (steps: seq<Step>)
    ensures |steps| == |picks|
  {
    seq(|picks|, i requires 0 <= i < |picks| => ClaimStep(picks[i].job, worker, picks[i].token, duration, picks[i].now))
  }

  lemma ClaimStepsExtend(picks: seq<Selection>, n: nat, worker: WorkerId, duration: nat)
    requires n < |picks|
    ensures ClaimSteps(picks[..n + 1], worker, duration) ==
            ClaimSteps(picks[..n], worker,
                       duration) + [ClaimStep(picks[n].job, worker, picks[n].token, duration, picks[n].now)]
  {
  }

  /** The claim is for the selected job, with the fresh token, and owns the fence. */
  predicate Granted(s: State, c: WorkerClaim, pick: Selection, worker: WorkerId)
  {
    c.job == pick.job && c.worker == worker && c.token == pick.token && ActiveClaim(s, c, pick.now)
  }

  /** One round of the claim loop: one more step of the run, and a grant owns the fence. */
  lemma ClaimRound(cfg: Config, s0: State, s: State, picks: seq<Selection>, n: nat, worker: WorkerId, duration: nat)
    requires ValidConfig(cfg) && Inv(cfg, s0) && n < |picks| && duration > 0
    requires s == Run(cfg, s0, ClaimSteps(picks[..n], worker, duration))
    ensures
      var r := ClaimOne(cfg, s, picks[n].job, worker, picks[n].token, duration, picks[n].now);
      && r.0 == Run(cfg, s0, ClaimSteps(picks[..n + 1], worker, duration))
      && (r.1.Claimed? ==> Granted(r.0, r.1.claim, picks[n], worker))
  {
    var pick := picks[n];
    ClaimStepsExtend(picks, n, worker, duration);
    RunExtends(
      cfg, s0, ClaimSteps(picks[..n], worker, duration), ClaimStep(pick.job, worker, pick.token, duration, pick.now));
    RunKeepsInv(cfg, s0, ClaimSteps(picks[..n], worker, duration));
    if ClaimOne(cfg, s, pick.job, worker, pick.token, duration, pick.now).1.Claimed? {
      GrantSupersedes(
        cfg, s, pick.job, worker, pick.token, duration, pick.now, WorkerClaim(0, pick.job, 0, worker, pick.token));
    }
  }

  class Repository {
    const cfg: Config
    var tenants: map<TenantId, Tenant>
    var jobs: map<JobId, Job>
    var attempts: map<AttemptKey, Attempt>
    var ledger: map<DayKey, LedgerRow>
    var outbox: Outbox.Rows
    var nextJobId: JobId
    var retired: map<AttemptKey, Attempt>

    constructor (cfg: Config)
      ensures this.cfg == cfg && Tables() == Empty()
      ensures Inv(cfg, Tables())
    {
      this.cfg := cfg;
      tenants, jobs, attempts, ledger, outbox, nextJobId, retired := map[], map[], map[], map[], map[], 0, map[];
      EmptyInv(cfg);
    }

    function Tables(): State
      reads this
    {
      State(tenants, jobs, attempts, ledger, outbox, nextJobId, retired)
    }

    /** Rolls the transaction back to the tables it began with. */
    method Restore(s: State)
      modifies this
      ensures Tables() == s
    {
      tenants, jobs, attempts, ledger, outbox, nextJobId, retired :=
        s.tenants, s.jobs, s.attempts, s.ledger, s.outbox, s.nextJobId, s.retired;
    }

    // ------------------------------------------------------------- statements

    /** Settles the ledger of one running attempt; nothing has been written when it fails. */
    method Release(
      tenant: TenantId, k: AttemptKey, now: Time, cases: seq<DurableCaseResult>, full: bool)
      returns (ok: bool, consumed: nat)
      requires MeasuredTimes(cases)
      modifies this`ledger, this`jobs
      ensures
        match ReleaseReservation(old(Tables()), tenant, k, now, cases, full)
        case None => !ok && Tables() == old(Tables())
        case Some((s, n)) => ok && Tables() == s && consumed == n
    {
      ok, consumed := false, 0;
      if k !in attempts || attempts[k].tenant != tenant || attempts[k].status != AttemptRunning {
        return;
      }
      var a := attempts[k];
      if a.reserved == 0 {
        return;
      }
      consumed := a.reserved;
      if !full {
        consumed := CappedCaseExecutionMillis(cases, a.reserved);
      }
      var day := DayKey(tenant, a.day);
      if day !in ledger || ledger[day].reserved < a.reserved {
        return;
      }
      ledger := ledger[day := LedgerRow(ledger[day].reserved - a.reserved, ledger[day].consumed + consumed)];
      jobs := Wake(jobs, tenant, a.day, now);
      ok := true;
    }

    method Expire(tenant: TenantId, k: AttemptKey, now: Time) returns (ok: bool)
      modifies this`ledger, this`jobs, this`attempts
      ensures
        match ExpireAttempt(old(Tables()), tenant, k, now)
        case None => !ok && Tables() == old(Tables())
        case Some(s) => ok && Tables() == s
    {
      var released, _ := Release(tenant, k, now, [], false);
      ok := released;
      if ok {
        var a := attempts[k];
        attempts := attempts[k := CloseAttempt(a, AttemptExpired, Some("LEASE_EXPIRED"), a.consumed, now)];
      }
    }

    method Finish(
      c: WorkerClaim, status: AttemptStatus, code: Option<string>, consumed: nat, now: Time)
      returns (ok: bool)
      modifies this`attempts
      ensures
        match FinishAttempt(old(Tables()), c, status, code, consumed, now)
        case None => !ok && Tables() == old(Tables())
        case Some(s) => ok && Tables() == s
    {
      var k := AttemptKey(c.job, c.attemptNo);
      ok := && k in attempts && attempts[k].status == AttemptRunning
            && attempts[k].worker == c.worker && attempts[k].token == Some(c.token);
      if ok {
        attempts := attempts[k := CloseAttempt(attempts[k], status, code, consumed, now)];
      }
    }

    method Reserve(k: DayKey, dailyLimit: int, cost: int) returns (decision: Reservation)
      modifies this`ledger
      ensures decision == ReserveDaily(old(ledger), k, dailyLimit, cost)
      ensures ledger == if decision.Allowed? || decision.Deferred? then decision.ledger else old(ledger)
    {
      if dailyLimit <= 0 || cost <= 0 {
        return Refused;
      }
      if cost > dailyLimit {
        return Impossible;
      }
      if k !in ledger {
        ledger := ledger[k := LedgerRow(0, 0)];
      }
      var row := ledger[k];
      assert ledger == ledger[k := row];
      if row.consumed > dailyLimit - cost || row.reserved > dailyLimit - cost - row.consumed {
        return Deferred(ledger);
      }
      ledger := ledger[k := LedgerRow(row.reserved + cost, row.consumed)];
      decision := Allowed(ledger);
    }

    method InsertEvent(j: JobId, now: Time) returns (ok: bool)
      modifies this`outbox
      ensures
        match InsertTerminalEvent(cfg, old(Tables()), j, now)
        case None => !ok && Tables() == old(Tables())
        case Some(s) => ok && Tables() == s
    {
      if j !in jobs {
        return false;
      }
      var job := jobs[j];
      if job.callback == None {
        return true;
      }
      var event := EncodeTerminalEvent(now, job.tenant, j, job.status, job.result, job.failureCode);
      if event == None {
        return false;
      }
      if j !in outbox {
        outbox := outbox[j := Outbox.NewRow(job.tenant, job.callback.value, event.value, now, cfg.webhookWindow)];
        return true;
      }
      var row := outbox[j];
      var expected := EncodeTerminalEvent(row.createdAt, job.tenant, j, job.status, job.result, job.failureCode);
      ok := expected == Some(row.body) && row.tenant == job.tenant && row.callback == job.callback.value;
    }

    /** Ends a job and announces it. */
    method End(
      j: JobId, status: JobStatus, result: Option<DurableJobResult>, code: Option<string>, now: Time)
      returns (ok: bool)
      requires j in jobs
      modifies this`jobs, this`outbox
      ensures
        match Terminate(cfg, old(Tables()), j, status, result, code, now)
        case None => !ok
        case Some(s) => ok && Tables() == s
    {
      jobs := jobs[j := jobs[j].(status := status, lease := None, result := result, failureCode := code,
                                 completedAt := Some(now), deferredDay := None)];
      ok := InsertEvent(j, now);
    }

    // ----------------------------------------------------------- transactions

    /** Reservation, deferral or grant of the job that the claim has locked. */
    method ReserveOrGrant(
      ghost s0: State, j: JobId, dailyLimit: int, cost: nat, worker: WorkerId, token: Token, duration: nat, now: Time)
      returns (outcome: ClaimOutcome)
      requires j in jobs
      modifies this
      ensures outcome == ReserveAndGrant(cfg, s0, old(Tables()), j, dailyLimit, cost, worker, token, duration, now).1
      ensures outcome != Unavailable ==>
        Tables() == ReserveAndGrant(cfg, s0, old(Tables()), j, dailyLimit, cost, worker, token, duration, now).0
      ensures outcome == Unavailable ==>
        ReserveAndGrant(cfg, s0, old(Tables()), j, dailyLimit, cost, worker, token, duration, now).0 == s0
    {
      var job := jobs[j];
      var decision := Reserve(DayKey(job.tenant, DayOf(now)), dailyLimit, cost);
      match decision
      case Refused => outcome := Unavailable;
      case Impossible =>
        var ok := End(j, Failed, job.result, Some("DAILY_EXECUTION_LIMIT_TOO_LOW"), now);
        outcome := if ok then Retry else Unavailable;
      case Deferred(_) =>
        jobs := jobs[j := job.(status := Queued, lease := None, nextAttemptAt := EndOfDay(DayOf(now)),
                               deferredDay := Some(DayOf(now)))];
        outcome := Retry;
      case Allowed(_) =>
        if job.attemptNo >= MAX_UINT32 {
          return Unavailable;
        }
        var no := job.attemptNo + 1;
        var until := now + duration;
        jobs := jobs[j := job.(status := Running, attemptNo := no, lease := Some(Lease(worker, token, until)),
                               startedAt := if job.startedAt.Some?
                                            then job.startedAt
                                            else Some(now), failureCode := None, deferredDay := None)];
        attempts := attempts[AttemptKey(j, no) :=
          Attempt(job.tenant, worker, Some(token), AttemptRunning, until, DayOf(now), cost, 0, now, None, None)];
        outcome := Claimed(WorkerClaim(job.tenant, j, no, worker, token));
    }

    /** Recovery of an expired lease, or the end of a job that may not run again. */
    method Recover(
      ghost s0: State, j: JobId, tenant: Tenant, cost: nat, worker: WorkerId, token: Token, duration: nat, now: Time)
      returns (outcome: ClaimOutcome)
      requires j in jobs && s0 == Tables()
      modifies this
      ensures outcome == RecoverExpired(cfg, s0, j, tenant, cost, worker, token, duration, now).1
      ensures outcome != Unavailable ==>
        Tables() == RecoverExpired(cfg, s0, j, tenant, cost, worker, token, duration, now).0
      ensures outcome == Unavailable ==> RecoverExpired(cfg, s0, j, tenant, cost, worker, token, duration, now).0 == s0
    {
      var job := jobs[j];
      var ok := Expire(job.tenant, AttemptKey(j, job.attemptNo), now);
      if !ok {
        return Unavailable;
      }
      if !tenant.active {
        ok := End(j, Failed, job.result, Some("TENANT_DISABLED"), now);
        outcome := if ok then Retry else Unavailable;
      } else if job.cancelRequestedAt.Some? {
        ok := End(j, Cancelled, None, None, now);
        outcome := if ok then Retry else Unavailable;
      } else if job.attemptNo >= tenant.policy.maxInfrastructureTries {
        ok := End(j, Failed, job.result, Some("LEASE_EXPIRED"), now);
        outcome := if ok then Retry else Unavailable;
      } else {
        outcome := ReserveOrGrant(s0, j, tenant.policy.dailyExecutionMillis, cost, worker, token, duration, now);
      }
    }

    /** One claim transaction on the job its query has selected. */
    method ClaimJob(j: JobId, worker: WorkerId, token: Token, duration: nat, now: Time) returns (outcome: ClaimOutcome)
      modifies this
      ensures (Tables(), outcome) == ClaimOne(cfg, old(Tables()), j, worker, token, duration, now)
    {
      var saved := Tables();
      if j !in jobs || jobs[j].tenant !in tenants {
        return NotClaimable;
      }
      var job := jobs[j];
      var tenant := tenants[job.tenant];
      if tenant.active && !ValidPolicy(tenant.policy) {
        return Unavailable;
      }
      if !Claimable(job, tenant.active, now) {
        return NotClaimable;
      }
      if || !ParsedLimits(job.limits)
         || (&& tenant.active
             && !WithinCeilings(job.limits, tenant.policy.maxTimeLimitMillis, tenant.policy.maxMemoryLimitMiB))
      {
        return Unavailable;
      }
      var cost := MaximumExecutionMillis(job.limits);
      if cost == None {
        return Unavailable;
      }
      if job.status == Running {
        outcome := Recover(saved, j, tenant, cost.value, worker, token, duration, now);
      } else {
        if |RunningJobs(jobs, job.tenant)| >= tenant.policy.maxRunningJobs {
          return NotClaimable;
        }
        outcome := ReserveOrGrant(
          saved, j, tenant.policy.dailyExecutionMillis, cost.value, worker, token, duration, now);
      }
      if outcome == Unavailable {
        Restore(saved);
      }
    }

    /**
     * The claim loop: at most 32 transactions, on the jobs the query selects until it finds none. It stops at the first
     * grant or error; the tables are those of a run of the claim transactions it made.
     */
    method ClaimNext(picks: seq<Selection>, worker: WorkerId, duration: nat) returns (outcome: ClaimOutcome, tried: nat)
      requires ValidConfig(cfg) && Inv(cfg, Tables())
      modifies this
      ensures tried <= MAX_CLAIM_RETRIES && tried <= |picks|
      ensures Tables() == Run(cfg, old(Tables()), ClaimSteps(picks[..tried], worker, duration)) && Inv(cfg, Tables())
      ensures duration == 0 || duration > MAX_LEASE ==> tried == 0 && outcome == Unavailable
      ensures outcome.Claimed? ==> 0 < tried && Granted(Tables(), outcome.claim, picks[tried - 1], worker)
    {
      tried := 0;
      if duration == 0 || duration > MAX_LEASE {
        return Unavailable, 0;
      }
      outcome := NotClaimable;
      while tried < MAX_CLAIM_RETRIES && tried < |picks| && !outcome.Claimed? && outcome != Unavailable
        invariant tried <= MAX_CLAIM_RETRIES && tried <= |picks|
        invariant Tables() == Run(cfg, old(Tables()), ClaimSteps(picks[..tried], worker, duration))
        invariant outcome.Claimed? ==> 0 < tried && Granted(Tables(), outcome.claim, picks[tried - 1], worker)
        decreases |picks| - tried
      {
        var pick := picks[tried];
        ghost var s := Tables();
        outcome := ClaimJob(pick.job, worker, pick.token, duration, pick.now);
        ClaimRound(cfg, old(Tables()), s, picks, tried, worker, duration);
        tried := tried + 1;
      }
      RunKeepsInv(cfg, old(Tables()), ClaimSteps(picks[..tried], worker, duration));
      if outcome == Retry {
        outcome := NotClaimable;
      }
    }

    method Heartbeat(c: WorkerClaim, duration: nat, now: Time) returns (outcome: WorkOutcome)
      modifies this
      ensures (Tables(), outcome) == HeartbeatTx(old(Tables()), c, duration, now)
    {
      if duration == 0 || duration > MAX_LEASE {
        return Stale;
      }
      var saved := Tables();
      if !ActiveClaim(Tables(), c, now) {
        return Stale;
      }
      var until := now + duration;
      var job := jobs[c.job];
      jobs := jobs[c.job := job.(lease := Some(Lease(c.worker, c.token, until)))];
      var k := AttemptKey(c.job, c.attemptNo);
      if !AttemptOwned(Tables(), c) {
        Restore(saved);
        return Stale;
      }
      attempts := attempts[k := attempts[k].(leaseUntil := until)];
      outcome := Done;
    }

    method SettleAndFinish(
      ghost s0: State, c: WorkerClaim, cases: seq<DurableCaseResult>, full: bool, status: AttemptStatus,
      code: Option<string>, announce: bool, now: Time)
      returns (outcome: WorkOutcome)
      requires MeasuredTimes(cases)
      modifies this
      ensures outcome == SettleClaim(cfg, s0, old(Tables()), c, cases, full, status, code, announce, now).1
      ensures outcome == Done ==>
        Tables() == SettleClaim(cfg, s0, old(Tables()), c, cases, full, status, code, announce, now).0
      ensures outcome != Done ==>
        s0 == SettleClaim(cfg, s0, old(Tables()), c, cases, full, status, code, announce, now).0
    {
      var ok, consumed := Release(c.tenant, AttemptKey(c.job, c.attemptNo), now, cases, full);
      if !ok {
        return WorkUnavailable;
      }
      ok := Finish(c, status, code, consumed, now);
      if !ok {
        return Stale;
      }
      if announce {
        ok := InsertEvent(c.job, now);
        if !ok {
          return WorkUnavailable;
        }
      }
      outcome := Done;
    }

    method Complete(c: WorkerClaim, result: DurableJobResult, now: Time, lockNow: Time) returns (outcome: WorkOutcome)
      modifies this
      ensures (Tables(), outcome) == CompleteTx(cfg, old(Tables()), c, result, now, lockNow)
    {
      var valid := ValidateDurableJobResult(result);
      if !valid {
        return Rejected;
      }
      var saved := Tables();
      if !ActiveClaim(Tables(), c, lockNow) {
        return Stale;
      }
      var job := jobs[c.job];
      var cancelled := job.cancelRequestedAt.Some?;
      var status, attemptStatus, persisted := Succeeded, AttemptSucceeded, Some(result);
      if cancelled {
        status, attemptStatus, persisted := Cancelled, AttemptCancelled, None;
      }
      jobs := jobs[c.job := job.(status := status, result := persisted, failureCode := None, completedAt := Some(now),
                                 lease := None, deferredDay := None)];
      var full := |result.cases| == 0 && (cancelled || result.compileStatus == "FAILED");
      outcome := SettleAndFinish(saved, c, result.cases, full, attemptStatus, None, true, now);
      if outcome != Done {
        Restore(saved);
      }
    }

    method FailInfrastructure(
      c: WorkerClaim, f: InfrastructureFailure, now: Time, lockNow: Time)
      returns (outcome: WorkOutcome, disposition: FailureDisposition)
      modifies this
      ensures (Tables(), outcome) == FailTx(cfg, old(Tables()), c, f, now, lockNow)
      ensures outcome == Done ==>
        && c.job in old(jobs) && old(jobs)[c.job].tenant in old(tenants)
        && disposition == Disposition(
          old(jobs)[c.job], c, f, old(tenants)[old(jobs)[c.job].tenant].policy.maxInfrastructureTries)
    {
      disposition := TerminalFailure;
      if !ValidFailure(f) {
        return Rejected, disposition;
      }
      var saved := Tables();
      if !ActiveClaim(Tables(), c, lockNow) || jobs[c.job].tenant !in tenants {
        return Stale, disposition;
      }
      var job := jobs[c.job];
      var policy := tenants[job.tenant].policy;
      if !ValidPolicy(policy) {
        return WorkUnavailable, disposition;
      }
      var status, attemptStatus, failureCode, attemptCode := Failed, AttemptFailed, Some(f.code), Some(f.code);
      var completedAt, nextAttemptAt := Some(now), now;
      if job.cancelRequestedAt.Some? {
        disposition, status, attemptStatus := CancelledFailure, Cancelled, AttemptCancelled;
        failureCode, attemptCode := None, None;
      } else if !f.permanent && c.attemptNo < policy.maxInfrastructureTries {
        disposition, status, failureCode := Requeued, Queued, None;
        completedAt, nextAttemptAt := None, now + f.retryDelay;
      }
      jobs := jobs[c.job := job.(status := status, nextAttemptAt := nextAttemptAt, failureCode := failureCode,
                                 completedAt := completedAt,
                                 lease := None, deferredDay := None)];
      assert jobs[c.job] == FailedJob(job, disposition, f, now);
      outcome := SettleAndFinish(saved, c, [], f.chargeFull, attemptStatus, attemptCode, disposition != Requeued, now);
      if outcome != Done {
        Restore(saved);
      }
    }

    method Cancel(tenant: TenantId, j: JobId, now: Time) returns (outcome: CancelOutcome)
      modifies this
      ensures (Tables(), outcome) == CancelTx(cfg, old(Tables()), tenant, j, now)
    {
      if tenant !in tenants || j !in jobs || jobs[j].tenant != tenant {
        return NotFound;
      }
      var saved := Tables();
      var job := jobs[j];
      if job.status == Queued {
        jobs := jobs[j := job.(status := Cancelled, cancelRequestedAt := Some(now), completedAt := Some(now),
                               lease := None, deferredDay := None)];
        var ok := InsertEvent(j, now);
        if !ok {
          Restore(saved);
          return CancelUnavailable;
        }
      } else if job.status == Running && job.cancelRequestedAt == None {
        jobs := jobs[j := job.(cancelRequestedAt := Some(now))];
      }
      outcome := CancelAccepted;
    }
  }
}
