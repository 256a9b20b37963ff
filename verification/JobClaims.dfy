/** When a claim is granted, what a grant books, and what becomes of a job that is not granted. */
module JobClaims {
  import opened Options
  import opened Events
  import opened JobModel
  import opened JobInvariants
  import opened JobSteps
  import opened JobRuns

  /** The reservation of one attempt: the time of contestant and checker for every case. */
  function Cost(l: ExecutionLimits): int
  {
    (l.timeLimitMillis + if l.checker.Some? then l.checker.value.timeLimitMillis else 0) * l.caseCount
  }

  /** What is reserved and consumed on the day of `now`. */
  function BookedToday(s: State, t: TenantId, now: Time): nat
  {
    var day := DayKey(t, DayOf(now));
    if day in s.ledger then s.ledger[day].reserved + s.ledger[day].consumed else 0
  }

  /** What the attempt of a running job gives back to a day when it expires. */
  function GivenBack(s: State, j: JobId, day: DayKey): nat
    requires j in s.jobs
  {
    var k := AttemptKey(j, s.jobs[j].attemptNo);
    if s.jobs[j].status == Running && k in s.attempts && day == DayKey(s.attempts[k].tenant, s.attempts[k].day)
    then s.attempts[k].reserved else 0
  }

  /** The tenant may run something, and the job's limits are within the tenant's. */
  predicate Admissible(s: State, j: JobId)
    requires j in s.jobs
  {
    var job := s.jobs[j];
    && job.tenant in s.tenants && s.tenants[job.tenant].active && ValidPolicy(s.tenants[job.tenant].policy)
    && ParsedLimits(job.limits)
    && var p := s.tenants[job.tenant].policy;
       WithinCeilings(job.limits, p.maxTimeLimitMillis, p.maxMemoryLimitMiB)
  }

  /** A queued job is due, and the tenant has a place for it. */
  predicate DueWithPlace(s: State, j: JobId, now: Time)
    requires j in s.jobs && s.jobs[j].tenant in s.tenants
  {
    var job := s.jobs[j];
    && job.status == Queued && job.nextAttemptAt <= now
    && |set i | i in s.jobs && s.jobs[i].tenant == job.tenant && s.jobs[i].status == Running| <
       s.tenants[job.tenant].policy.maxRunningJobs
  }

  predicate LeaseRanOut(job: Job, now: Time)
  {
    job.status == Running && job.lease.Some? && job.lease.value.until <= now
  }

  /** A running job has lost its worker, nobody has cancelled it, and it has a try left. */
  predicate Recoverable(s: State, j: JobId, now: Time)
    requires j in s.jobs && s.jobs[j].tenant in s.tenants
  {
    var job := s.jobs[j];
    && LeaseRanOut(job, now) && job.cancelRequestedAt == None
    && job.attemptNo < s.tenants[job.tenant].policy.maxInfrastructureTries
  }

  predicate FitsToday(s: State, j: JobId, now: Time)
    requires j in s.jobs && s.jobs[j].tenant in s.tenants
  {
    var t := s.jobs[j].tenant;
    BookedToday(s, t, now) - GivenBack(s, j, DayKey(t, DayOf(now))) + Cost(s.jobs[j].limits) <=
    s.tenants[t].policy.dailyExecutionMillis
  }

  predicate Grantable(s: State, j: JobId, now: Time)
  {
    && j in s.jobs && Admissible(s, j)
    && (DueWithPlace(s, j, now) || Recoverable(s, j, now))
    && s.jobs[j].attemptNo < MAX_UINT32 && FitsToday(s, j, now)
  }

  // ------------------------------------------------------------------ reservation

  lemma ReservationDecides(ledger: map<DayKey, LedgerRow>, k: DayKey, dailyLimit: int, cost: int)
    requires cost > 0
    ensures
      var r := ReserveDaily(ledger, k, dailyLimit, cost);
      var total := if k in ledger then ledger[k].reserved + ledger[k].consumed else 0;
      && (r.Allowed? <==> total + cost <= dailyLimit)
      && (r.Deferred? <==> cost <= dailyLimit < total + cost)
      && (r.Impossible? <==> 0 < dailyLimit < cost)
      && (r.Refused? <==> dailyLimit <= 0)
      && (r.Allowed? ==> r.ledger == ledger[k := LedgerAt(ledger, k).(reserved := LedgerAt(ledger, k).reserved + cost)])
      && (r.Deferred? ==> r.ledger == ledger[k := LedgerAt(ledger, k)])
  {
  }

  lemma CostIsReserved(l: ExecutionLimits)
    requires ParsedLimits(l)
    ensures MaximumExecutionMillis(l) == Some(Cost(l)) && Cost(l) > 0
  {
    ParsedLimitsHaveReservation(l);
  }

  /** The books of every day after the expiry of a running job's attempt: its reservation is given back, for nothing. */
  lemma ExpiryGivesBack(cfg: Config, s: State, j: JobId, now: Time, s1: State, day: DayKey)
    requires Inv(cfg, s) && j in s.jobs && s.jobs[j].status == Running
    requires ExpireAttempt(s, s.jobs[j].tenant, AttemptKey(j, s.jobs[j].attemptNo), now) == Some(s1)
    ensures
      && GivenBack(s, j, day) <= LedgerAt(s.ledger, day).reserved
      && LedgerAt(s1.ledger, day) ==
           LedgerRow(LedgerAt(s.ledger, day).reserved - GivenBack(s, j, day), LedgerAt(s.ledger, day).consumed)
  {
    var k := AttemptKey(j, s.jobs[j].attemptNo);
    assert HasRunningAttempt(s, j) && AttemptOk(s, k);
    LedgerCoversAttempt(cfg, s, k);
    ExpireUnfolds(s, k, now);
  }

  lemma ReserveGrants(
    cfg: Config, s0: State, s: State, j: JobId, dailyLimit: int, cost: nat, worker: WorkerId, token: Token,
    duration: nat, now: Time)
    requires j in s.jobs && cost > 0
    ensures ReserveAndGrant(cfg, s0, s, j, dailyLimit, cost, worker, token, duration, now).1.Claimed? <==>
      s.jobs[j].attemptNo < MAX_UINT32 && BookedToday(s, s.jobs[j].tenant, now) + cost <= dailyLimit
  {
    ReservationDecides(s.ledger, DayKey(s.jobs[j].tenant, DayOf(now)), dailyLimit, cost);
  }

  lemma RecoveryGrants(
    cfg: Config, s: State, j: JobId, cost: nat, worker: WorkerId, token: Token, duration: nat, now: Time)
    requires Inv(cfg, s) && j in s.jobs && s.jobs[j].tenant in s.tenants && s.jobs[j].status == Running && cost > 0
    ensures
      var t := s.jobs[j].tenant;
      var tenant := s.tenants[t];
      RecoverExpired(cfg, s, j, tenant, cost, worker, token, duration, now).1.Claimed? <==>
        && tenant.active && s.jobs[j].cancelRequestedAt == None
        && s.jobs[j].attemptNo < tenant.policy.maxInfrastructureTries && s.jobs[j].attemptNo < MAX_UINT32
        && BookedToday(s, t, now) - GivenBack(s, j, DayKey(t, DayOf(now))) + cost <= tenant.policy.dailyExecutionMillis
  {
    var t := s.jobs[j].tenant;
    ExpireSucceeds(cfg, s, j, now);
    var s1 := ExpireAttempt(s, t, AttemptKey(j, s.jobs[j].attemptNo), now).value;
    ExpiryGivesBack(cfg, s, j, now, s1, DayKey(t, DayOf(now)));
    RecoveryDecides(cfg, s, s1, j, s.tenants[t], cost, worker, token, duration, now);
  }

  lemma RecoveryDecides(
    cfg: Config, s: State, s1: State, j: JobId, tenant: Tenant, cost: nat, worker: WorkerId, token: Token,
    duration: nat, now: Time)
    requires j in s.jobs && j in s1.jobs && s1.jobs[j] == s.jobs[j] && cost > 0
    requires ExpireAttempt(s, s.jobs[j].tenant, AttemptKey(j, s.jobs[j].attemptNo), now) == Some(s1)
    ensures RecoverExpired(cfg, s, j, tenant, cost, worker, token, duration, now).1.Claimed? <==>
      && tenant.active && s.jobs[j].cancelRequestedAt == None
      && s.jobs[j].attemptNo < tenant.policy.maxInfrastructureTries && s.jobs[j].attemptNo < MAX_UINT32
      && BookedToday(s1, s.jobs[j].tenant, now) + cost <= tenant.policy.dailyExecutionMillis
  {
    ReserveGrants(cfg, s, s1, j, tenant.policy.dailyExecutionMillis, cost, worker, token, duration, now);
  }

  // ---------------------------------------------------------------- when granted

  /**
   * A claim is granted if and only if the job is due and its tenant has a place, or its lease ran out and it may be
   * tried again; the tenant is active, the limits are within the tenant's, and the reservation fits the day.
   */
  lemma GrantedIf(cfg: Config, s: State, j: JobId, worker: WorkerId, token: Token, duration: nat, now: Time)
    requires Inv(cfg, s)
    ensures ClaimOne(cfg, s, j, worker, token, duration, now).1.Claimed? <==> Grantable(s, j, now)
  {
    if j in s.jobs && s.jobs[j].tenant in s.tenants && ParsedLimits(s.jobs[j].limits) {
      var cost := Cost(s.jobs[j].limits);
      CostIsReserved(s.jobs[j].limits);
      if s.jobs[j].status == Running {
        RecoveryGrants(cfg, s, j, cost, worker, token, duration, now);
      } else if s.jobs[j].status == Queued {
        QueuedGrants(cfg, s, j, worker, token, duration, now);
      }
    }
  }

  lemma QueuedGrants(cfg: Config, s: State, j: JobId, worker: WorkerId, token: Token, duration: nat, now: Time)
    requires j in s.jobs && s.jobs[j].tenant in s.tenants && ParsedLimits(s.jobs[j].limits)
    requires s.jobs[j].status == Queued
    ensures ClaimOne(cfg, s, j, worker, token, duration, now).1.Claimed? <==> Grantable(s, j, now)
  {
    CostIsReserved(s.jobs[j].limits);
    var limit := s.tenants[s.jobs[j].tenant].policy.dailyExecutionMillis;
    ReserveGrants(cfg, s, s, j, limit, Cost(s.jobs[j].limits), worker, token, duration, now);
    assert RunningJobs(s.jobs, s.jobs[j].tenant) ==
           set i | i in s.jobs && s.jobs[i].tenant == s.jobs[j].tenant && s.jobs[i].status == Running;
  }

  /** A job that is neither due nor without its worker is left alone, and so is everything else. */
  lemma NotDueIsLeftAlone(cfg: Config, s: State, j: JobId, worker: WorkerId, token: Token, duration: nat, now: Time)
    requires j in s.jobs
    requires !(s.jobs[j].status == Queued && s.jobs[j].nextAttemptAt <= now) && !LeaseRanOut(s.jobs[j], now)
    ensures
      var r := ClaimOne(cfg, s, j, worker, token, duration, now);
      r.0 == s && (r.1 == NotClaimable || r.1 == Unavailable)
  {
  }

  // --------------------------------------------------------------- what is booked

  /** The lease, the attempt and the booking of a grant. */
  ghost predicate Granted(
    s: State, s': State, j: JobId, worker: WorkerId, token: Token, duration: nat, now: Time)
    requires j in s.jobs
  {
    var job := s.jobs[j];
    var today := DayKey(job.tenant, DayOf(now));
    && j in s'.jobs
    && s'.jobs[j] == job.(
         status := Running, attemptNo := job.attemptNo + 1, lease := Some(Lease(worker, token, now + duration)),
         startedAt := if job.startedAt.Some? then job.startedAt else Some(now), failureCode := None,
         deferredDay := None)
    && var k := AttemptKey(j, job.attemptNo + 1);
    && k in s'.attempts
    && s'.attempts[k].reserved == Cost(job.limits)
    && s'.attempts[k] == Attempt(job.tenant, worker, Some(token), AttemptRunning, now + duration, DayOf(now),
                                 s'.attempts[k].reserved, 0, now, None, None)
    && Booked(s, s', j, today, Cost(job.limits))
  }

  /** Every day's books: what the expired attempt gives back, and what is booked to `today`; nothing is charged. */
  ghost predicate Booked(s: State, s': State, j: JobId, today: DayKey, cost: int)
    requires j in s.jobs
  {
    forall day :: BookedOn(s, s', j, day, today, cost)
  }

  predicate BookedOn(s: State, s': State, j: JobId, day: DayKey, today: DayKey, cost: int)
    requires j in s.jobs
  {
    && LedgerAt(s'.ledger, day).reserved ==
         LedgerAt(s.ledger, day).reserved - GivenBack(s, j, day) + (if day == today then cost else 0)
    && LedgerAt(s'.ledger, day).consumed == LedgerAt(s.ledger, day).consumed
  }

  /** An expiry, and then a booking. */
  lemma RecoveryBooks(cfg: Config, s: State, j: JobId, now: Time, s1: State, s': State, today: DayKey, cost: nat)
    requires Inv(cfg, s) && j in s.jobs && s.jobs[j].status == Running
    requires ExpireAttempt(s, s.jobs[j].tenant, AttemptKey(j, s.jobs[j].attemptNo), now) == Some(s1)
    requires forall day :: LedgerAt(s'.ledger, day) ==
               LedgerAt(s1.ledger, day).(
                 reserved := LedgerAt(s1.ledger, day).reserved + if day == today then cost else 0)
    ensures Booked(s, s', j, today, cost)
  {
    forall day ensures BookedOn(s, s', j, day, today, cost) {
      ExpiryGivesBack(cfg, s, j, now, s1, day);
    }
  }

  lemma GrantBooks(
    cfg: Config, s0: State, s: State, j: JobId, dailyLimit: int, cost: nat, worker: WorkerId, token: Token,
    duration: nat, now: Time, s': State)
    requires j in s.jobs && cost > 0
    requires
      var r := ReserveAndGrant(cfg, s0, s, j, dailyLimit, cost, worker, token, duration, now);
      r.1.Claimed? && s' == r.0
    ensures
      var job := s.jobs[j];
      var k := AttemptKey(j, job.attemptNo + 1);
      var today := DayKey(job.tenant, DayOf(now));
      && s'.jobs == s.jobs[j := job.(
           status := Running, attemptNo := job.attemptNo + 1, lease := Some(Lease(worker, token, now + duration)),
           startedAt := if job.startedAt.Some? then job.startedAt else Some(now), failureCode := None,
           deferredDay := None)]
      && s'.attempts == s.attempts[k := Attempt(job.tenant, worker, Some(token), AttemptRunning, now + duration,
                                                DayOf(now), cost, 0, now, None, None)]
      && s'.ledger ==
           s.ledger[today := LedgerAt(s.ledger, today).(reserved := LedgerAt(s.ledger, today).reserved + cost)]
  {
    ReservationDecides(s.ledger, DayKey(s.jobs[j].tenant, DayOf(now)), dailyLimit, cost);
  }

  /** A grant leases the job for the whole duration and books exactly its cost to the day of the claim. */
  lemma GrantEffect(cfg: Config, s: State, j: JobId, worker: WorkerId, token: Token, duration: nat, now: Time)
    requires Inv(cfg, s) && ClaimOne(cfg, s, j, worker, token, duration, now).1.Claimed?
    ensures j in s.jobs
    ensures Granted(s, ClaimOne(cfg, s, j, worker, token, duration, now).0, j, worker, token, duration, now)
  {
    GrantedIf(cfg, s, j, worker, token, duration, now);
    CostIsReserved(s.jobs[j].limits);
    var s' := ClaimOne(cfg, s, j, worker, token, duration, now).0;
    if s.jobs[j].status == Running {
      RecoveredGrant(cfg, s, j, worker, token, duration, now, s');
    } else {
      var limit := s.tenants[s.jobs[j].tenant].policy.dailyExecutionMillis;
      GrantBooks(cfg, s, s, j, limit, Cost(s.jobs[j].limits), worker, token, duration, now, s');
    }
  }

  lemma RecoveredGrant(
    cfg: Config, s: State, j: JobId, worker: WorkerId, token: Token, duration: nat, now: Time, s': State)
    requires Inv(cfg, s) && j in s.jobs && Admissible(s, j) && Recoverable(s, j, now)
    requires
      var r := ClaimOne(cfg, s, j, worker, token, duration, now);
      r.1.Claimed? && s' == r.0
    ensures Granted(s, s', j, worker, token, duration, now)
  {
    var t := s.jobs[j].tenant;
    CostIsReserved(s.jobs[j].limits);
    ExpireSucceeds(cfg, s, j, now);
    var s1 := ExpireAttempt(s, t, AttemptKey(j, s.jobs[j].attemptNo), now).value;
    var limit := s.tenants[t].policy.dailyExecutionMillis;
    RecoveryIsReservation(cfg, s, s1, j, worker, token, duration, now);
    GrantBooks(cfg, s, s1, j, limit, Cost(s.jobs[j].limits), worker, token, duration, now, s');
    RecoveryBooks(cfg, s, j, now, s1, s', DayKey(t, DayOf(now)), Cost(s.jobs[j].limits));
  }

  /** The claim of a recoverable job is a reservation request after the expiry. */
  lemma RecoveryIsReservation(
    cfg: Config, s: State, s1: State, j: JobId, worker: WorkerId, token: Token, duration: nat, now: Time)
    requires j in s.jobs && Admissible(s, j) && Recoverable(s, j, now) && j in s1.jobs
    requires ExpireAttempt(s, s.jobs[j].tenant, AttemptKey(j, s.jobs[j].attemptNo), now) == Some(s1)
    ensures Cost(s.jobs[j].limits) > 0
    ensures
      var limit := s.tenants[s.jobs[j].tenant].policy.dailyExecutionMillis;
      ClaimOne(cfg, s, j, worker, token, duration, now) ==
      ReserveAndGrant(cfg, s, s1, j, limit, Cost(s.jobs[j].limits), worker, token, duration, now)
  {
    CostIsReserved(s.jobs[j].limits);
  }

  // -------------------------------------------------------------- what is not granted

  /** The row of a job that a claim has ended. */
  function EndedRow(job: Job, status: JobStatus, code: Option<string>, now: Time): Job
  {
    job.(status := status, lease := None, result := None, failureCode := code, completedAt := Some(now),
         deferredDay := None)
  }

  /**
   * A running job without its worker that may not run again ends: CANCELLED if somebody asked for it, else FAILED, and
   * the code says why. Its reservation is given back and it is announced.
   */
  lemma UnrecoverableEnds(cfg: Config, s: State, j: JobId, worker: WorkerId, token: Token, duration: nat, now: Time)
    requires ValidConfig(cfg) && Inv(cfg, s) && j in s.jobs && LeaseRanOut(s.jobs[j], now)
    requires ParsedLimits(s.jobs[j].limits)
    requires s.jobs[j].tenant in s.tenants && (s.tenants[s.jobs[j].tenant].active ==> Admissible(s, j))
    requires
      || !s.tenants[s.jobs[j].tenant].active || s.jobs[j].cancelRequestedAt.Some?
      || s.jobs[j].attemptNo >= s.tenants[s.jobs[j].tenant].policy.maxInfrastructureTries
    ensures
      var r := ClaimOne(cfg, s, j, worker, token, duration, now);
      var job := s.jobs[j];
      && r.1 == Retry && j in r.0.jobs && EventWritten(s, r.0, j)
      && r.0.jobs[j] ==
           (if !s.tenants[job.tenant].active then EndedRow(job, Failed, Some("TENANT_DISABLED"), now)
            else if job.cancelRequestedAt.Some? then EndedRow(job, Cancelled, None, now)
            else EndedRow(job, Failed, Some("LEASE_EXPIRED"), now))
      && Booked(s, r.0, j, DayKey(job.tenant, DayOf(now)), 0)
  {
    var job := s.jobs[j];
    assert JobFields(job);
    ExpireSucceeds(cfg, s, j, now);
    var s1 := ExpireAttempt(s, job.tenant, AttemptKey(j, job.attemptNo), now).value;
    assert s1.outbox == s.outbox;
    ClaimIsTermination(cfg, s, s1, j, worker, token, duration, now);
    FailureCodesAreValid();
    var (status, code) := RecoveryEnd(job, s.tenants[job.tenant]);
    TerminateRow(cfg, s1, j, status, code, now);
    RecoveryBooks(cfg, s, j, now, s1, ClaimOne(cfg, s, j, worker, token, duration, now).0,
                  DayKey(job.tenant, DayOf(now)), 0);
  }

  /** The claim of an unrecoverable job ends it after the expiry. */
  lemma ClaimIsTermination(
    cfg: Config, s: State, s1: State, j: JobId, worker: WorkerId, token: Token, duration: nat, now: Time)
    requires j in s.jobs && LeaseRanOut(s.jobs[j], now) && ParsedLimits(s.jobs[j].limits) && s.jobs[j].result == None
    requires s.jobs[j].tenant in s.tenants && (s.tenants[s.jobs[j].tenant].active ==> Admissible(s, j))
    requires
      || !s.tenants[s.jobs[j].tenant].active || s.jobs[j].cancelRequestedAt.Some?
      || s.jobs[j].attemptNo >= s.tenants[s.jobs[j].tenant].policy.maxInfrastructureTries
    requires ExpireAttempt(s, s.jobs[j].tenant, AttemptKey(j, s.jobs[j].attemptNo), now) == Some(s1)
    ensures
      var (status, code) := RecoveryEnd(s.jobs[j], s.tenants[s.jobs[j].tenant]);
      ClaimOne(cfg, s, j, worker, token, duration, now) ==
      Committed(s, Terminate(cfg, s1, j, status, None, code, now), Retry)
  {
    CostIsReserved(s.jobs[j].limits);
    var tenant := s.tenants[s.jobs[j].tenant];
    RecoveryEndUnfolds(cfg, s, s1, j, tenant, Cost(s.jobs[j].limits), worker, token, duration, now);
  }

  lemma TerminateRow(cfg: Config, s: State, j: JobId, status: JobStatus, code: Option<string>, now: Time)
    requires ValidConfig(cfg) && Detached(cfg, s, j)
    requires (status == Failed && code.Some? && ValidFailureCode(code.value))
          || (status == Cancelled && code == None && s.jobs[j].cancelRequestedAt.Some?)
    ensures
      var r := Terminate(cfg, s, j, status, None, code, now);
      && r.Some? && r.value.jobs == s.jobs[j := EndedRow(s.jobs[j], status, code, now)]
      && r.value.ledger == s.ledger && r.value.attempts == s.attempts && EventWritten(s, r.value, j)
  {
    var s' := TerminateEffect(cfg, s, j, status, code, now);
  }

  /** What a claim of an admissible job does that does not fit the day of the claim. */
  ghost predicate PutOff(s: State, s': State, j: JobId, now: Time)
    requires j in s.jobs && s.jobs[j].tenant in s.tenants
  {
    var job := s.jobs[j];
    && j in s'.jobs && Booked(s, s', j, DayKey(job.tenant, DayOf(now)), 0)
    && if Cost(job.limits) <= s.tenants[job.tenant].policy.dailyExecutionMillis
       then
         && s'.jobs[j] == job.(status := Queued, lease := None, nextAttemptAt := (DayOf(now) + 1) * DAY,
                               deferredDay := Some(DayOf(now)))
         && s'.outbox == s.outbox
       else
         && s'.jobs[j] == EndedRow(job, Failed, Some("DAILY_EXECUTION_LIMIT_TOO_LOW"), now)
         && EventWritten(s, s', j)
  }

  /** A job that does not fit today waits for midnight; one that fits no day fails. Nothing is booked. */
  lemma UnaffordableIsPutOff(cfg: Config, s: State, j: JobId, worker: WorkerId, token: Token, duration: nat, now: Time)
    requires ValidConfig(cfg) && Inv(cfg, s) && j in s.jobs && Admissible(s, j)
    requires (DueWithPlace(s, j, now) || Recoverable(s, j, now)) && !FitsToday(s, j, now)
    ensures
      var r := ClaimOne(cfg, s, j, worker, token, duration, now);
      r.1 == Retry && PutOff(s, r.0, j, now)
  {
    var job := s.jobs[j];
    var limit := s.tenants[job.tenant].policy.dailyExecutionMillis;
    CostIsReserved(job.limits);
    assert JobFields(job);
    if job.status == Running {
      RecoveredIsPutOff(cfg, s, j, worker, token, duration, now, ClaimOne(cfg, s, j, worker, token, duration, now).0);
    } else {
      QueuedJobIsDetached(cfg, s, j);
      assert RunningJobs(s.jobs, job.tenant) ==
             set i | i in s.jobs && s.jobs[i].tenant == job.tenant && s.jobs[i].status == Running;
      ReservePutsOff(cfg, s, s, j, limit, Cost(job.limits), worker, token, duration, now);
    }
  }

  lemma RecoveredIsPutOff(
    cfg: Config, s: State, j: JobId, worker: WorkerId, token: Token, duration: nat, now: Time, s': State)
    requires ValidConfig(cfg) && Inv(cfg, s) && j in s.jobs && Admissible(s, j)
    requires Recoverable(s, j, now) && !FitsToday(s, j, now)
    requires s' == ClaimOne(cfg, s, j, worker, token, duration, now).0
    ensures ClaimOne(cfg, s, j, worker, token, duration, now).1 == Retry && PutOff(s, s', j, now)
  {
    var job := s.jobs[j];
    var limit := s.tenants[job.tenant].policy.dailyExecutionMillis;
    assert JobFields(job);
    ExpireSucceeds(cfg, s, j, now);
    var s1 := ExpireAttempt(s, job.tenant, AttemptKey(j, job.attemptNo), now).value;
    assert s1.outbox == s.outbox;
    RecoveryIsReservation(cfg, s, s1, j, worker, token, duration, now);
    ExpiryGivesBack(cfg, s, j, now, s1, DayKey(job.tenant, DayOf(now)));
    ReservePutsOff(cfg, s, s1, j, limit, Cost(job.limits), worker, token, duration, now);
    RecoveryBooks(cfg, s, j, now, s1, s', DayKey(job.tenant, DayOf(now)), 0);
  }

  lemma ReservePutsOff(
    cfg: Config, s0: State, s: State, j: JobId, dailyLimit: int, cost: nat, worker: WorkerId, token: Token,
    duration: nat, now: Time)
    requires ValidConfig(cfg) && Detached(cfg, s, j) && JobFields(s.jobs[j]) && cost > 0 && dailyLimit > 0
    requires s.jobs[j].cancelRequestedAt == None && BookedToday(s, s.jobs[j].tenant, now) + cost > dailyLimit
    ensures
      var r := ReserveAndGrant(cfg, s0, s, j, dailyLimit, cost, worker, token, duration, now);
      var job := s.jobs[j];
      && r.1 == Retry && j in r.0.jobs && (forall day :: LedgerAt(r.0.ledger, day) == LedgerAt(s.ledger, day))
      && if cost <= dailyLimit
         then
           && r.0.jobs[j] == job.(status := Queued, lease := None, nextAttemptAt := (DayOf(now) + 1) * DAY,
                                  deferredDay := Some(DayOf(now)))
           && r.0.outbox == s.outbox
         else
           && r.0.jobs[j] == EndedRow(job, Failed, Some("DAILY_EXECUTION_LIMIT_TOO_LOW"), now)
           && EventWritten(s, r.0, j)
  {
    ReservationDecides(s.ledger, DayKey(s.jobs[j].tenant, DayOf(now)), dailyLimit, cost);
    if cost > dailyLimit {
      FailureCodesAreValid();
      TerminateRow(cfg, s, j, Failed, Some("DAILY_EXECUTION_LIMIT_TOO_LOW"), now);
    }
  }
}
