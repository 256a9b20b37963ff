/**
 * What holds of every run of the job tables, whatever the interleaving: fencing, finality, announcements, cancellation.
 */
module JobTheorems {
  import opened Options
  import opened Events
  import opened Results
  import opened JobModel
  import opened JobInvariants
  import opened JobSteps
  import opened JobRuns

  lemma {:induction false} RunExtends(cfg: Config, s: State, steps: seq<Step>, step: Step)
    ensures Run(cfg, s, steps + [step]) == Apply(cfg, Run(cfg, s, steps), step)
    decreases |steps|
  {
    if steps == [] {
      assert [step][1..] == [];
    } else {
      assert (steps + [step])[1..] == steps[1..] + [step];
      RunExtends(cfg, Apply(cfg, s, steps[0]), steps[1..], step);
    }
  }

  // ------------------------------------------------------- one running attempt

  /**
   * A job is RUNNING exactly when one of its attempts is, and that one agrees with it on number, worker, token and
   * lease.
   */
  lemma RunningMeansOneAttempt(cfg: Config, s: State, j: JobId)
    requires Inv(cfg, s) && j in s.jobs
    ensures s.jobs[j].status == Running <==>
              exists k :: k in s.attempts && k.job == j && s.attempts[k].status == AttemptRunning
    ensures forall k :: k in s.attempts && k.job == j && s.attempts[k].status == AttemptRunning ==>
              && k.no == s.jobs[j].attemptNo
              && s.jobs[j].lease ==
                   Some(Lease(s.attempts[k].worker, s.attempts[k].token.value, s.attempts[k].leaseUntil))
  {
  }

  // -------------------------------------------------------------- the ledger

  predicate RunningOn(a: Attempt, day: DayKey)
  {
    a.status == AttemptRunning && DayKey(a.tenant, a.day) == day
  }

  /**
   * In every reachable state each ledger row is exactly the sum of what is booked to its tenant and day: reservations
   * of running attempts, charges of settled ones (deleted jobs included). So the settlement guard never refuses.
   */
  lemma LedgerIsTheSumOfAttempts(cfg: Config, steps: seq<Step>, day: DayKey)
    requires ValidConfig(cfg)
    ensures
      var s := Run(cfg, Empty(), steps);
      && LedgerAt(s.ledger, day).reserved == ReservedOf(s.attempts, day)
      && LedgerAt(s.ledger, day).consumed == ConsumedOf(s.attempts, day) + ConsumedOf(s.retired, day)
      && forall k :: k in s.attempts && RunningOn(s.attempts[k], day) ==>
           day in s.ledger && 0 < s.attempts[k].reserved <= s.ledger[day].reserved
  {
    EmptyInv(cfg);
    RunKeepsInv(cfg, Empty(), steps);
    var s := Run(cfg, Empty(), steps);
    assert RowBalanced(s, day);
    forall k | k in s.attempts && RunningOn(s.attempts[k], day)
      ensures day in s.ledger && 0 < s.attempts[k].reserved <= s.ledger[day].reserved
    {
      LedgerCoversAttempt(cfg, s, k);
    }
  }

  // ------------------------------------------------------------- row histories

  /** The rows of `s'` are later versions of the rows of `s`: no identifier is reused and nothing is undone. */
  ghost predicate Later(s: State, s': State)
  {
    && s.nextJobId <= s'.nextJobId
    && (forall j :: j in s'.jobs && j < s.nextJobId ==> j in s.jobs && JobAdvances(s.jobs[j], s'.jobs[j]))
    && AttemptsAdvance(s, s')
  }

  lemma LaterIsTransitive(a: State, b: State, c: State)
    requires Later(a, b) && Later(b, c)
    ensures Later(a, c)
  {
  }

  /** Identifiers are never reused, settled attempts and terminal jobs are frozen, in every run. */
  lemma {:induction false} RunIsLater(cfg: Config, s: State, steps: seq<Step>)
    requires ValidConfig(cfg) && Inv(cfg, s)
    ensures Later(s, Run(cfg, s, steps)) && Inv(cfg, Run(cfg, s, steps))
    decreases |steps|
  {
    RunKeepsInv(cfg, s, steps);
    if steps != [] {
      var mid := Apply(cfg, s, steps[0]);
      StepAdvances(cfg, s, steps[0]);
      StepKeepsInv(cfg, s, steps[0]);
      RunIsLater(cfg, mid, steps[1..]);
      LaterIsTransitive(s, mid, Run(cfg, s, steps));
    }
  }

  /** A terminal job never changes again: the row a reader sees later, if it is still there, is this very row. */
  lemma TerminalJobsAreFinal(cfg: Config, s: State, steps: seq<Step>, j: JobId)
    requires ValidConfig(cfg) && Inv(cfg, s) && j in s.jobs && Terminal(s.jobs[j].status)
    ensures j in Run(cfg, s, steps).jobs ==> Run(cfg, s, steps).jobs[j] == s.jobs[j]
  {
    assert j < s.nextJobId;
    RunIsLater(cfg, s, steps);
  }

  /** An attempt is settled at most once: its charge, status and times stay as they are. */
  lemma SettledAttemptsAreFinal(cfg: Config, s: State, steps: seq<Step>, k: AttemptKey)
    requires ValidConfig(cfg) && Inv(cfg, s) && k in s.attempts && s.attempts[k].status != AttemptRunning
    ensures
      var s' := Run(cfg, s, steps);
      || (k in s'.attempts && s'.attempts[k] == s.attempts[k])
      || (k in s'.retired && s'.retired[k] == s.attempts[k])
  {
    RunIsLater(cfg, s, steps);
  }

  // ------------------------------------------------------------------- fencing

  /** The job has moved past this claim: a later attempt exists, or this one is no longer running. */
  predicate Superseded(s: State, c: WorkerClaim)
  {
    && c.job < s.nextJobId
    && (c.job in s.jobs ==>
          || c.attemptNo < s.jobs[c.job].attemptNo
          || (c.attemptNo == s.jobs[c.job].attemptNo && s.jobs[c.job].status != Running))
  }

  /** A request of the worker that holds (or held) claim `c`. */
  predicate IsRequestOf(step: Step, c: WorkerClaim)
  {
    match step
    case HeartbeatStep(claim, _, _) => claim == c
    case CompleteStep(claim, _, _, _) => claim == c
    case FailStep(claim, _, _, _) => claim == c
    case _ => false
  }

  lemma SupersededIsPowerless(cfg: Config, s: State, c: WorkerClaim, step: Step)
    requires Superseded(s, c) && IsRequestOf(step, c)
    ensures Apply(cfg, s, step) == s
  {
    assert forall now :: !ActiveClaim(s, c, now);
  }

  /** Fencing over whole runs: once superseded, a claim never changes any row again. */
  lemma SupersededForever(cfg: Config, s: State, steps: seq<Step>, c: WorkerClaim, step: Step)
    requires ValidConfig(cfg) && Inv(cfg, s) && Superseded(s, c) && IsRequestOf(step, c)
    ensures Superseded(Run(cfg, s, steps), c)
    ensures Run(cfg, s, steps + [step]) == Run(cfg, s, steps)
  {
    var s' := Run(cfg, s, steps);
    RunIsLater(cfg, s, steps);
    assert c.job in s'.jobs ==> c.job in s.jobs && JobAdvances(s.jobs[c.job], s'.jobs[c.job]);
    RunExtends(cfg, s, steps, step);
    SupersededIsPowerless(cfg, s', c, step);
  }

  /** A granted claim counts the job's attempts up by one, holds the fence, and supersedes every earlier claim. */
  lemma GrantSupersedes(
    cfg: Config, s: State, j: JobId, worker: WorkerId, token: Token, duration: nat, now: Time, earlier: WorkerClaim)
    requires ValidConfig(cfg) && Inv(cfg, s) && duration > 0
    requires ClaimOne(cfg, s, j, worker, token, duration, now).1.Claimed?
    requires earlier.job == j && j in s.jobs && earlier.attemptNo <= s.jobs[j].attemptNo
    ensures
      var r := ClaimOne(cfg, s, j, worker, token, duration, now);
      var c := r.1.claim;
      && c == WorkerClaim(s.jobs[j].tenant, j, s.jobs[j].attemptNo + 1, worker, token)
      && ActiveClaim(r.0, c, now) && AttemptOwned(r.0, c)
      && Superseded(r.0, earlier)
  {
    var r := ClaimOne(cfg, s, j, worker, token, duration, now);
    var cost := MaximumExecutionMillis(s.jobs[j].limits).value;
    if s.jobs[j].status == Running {
      var s1 := ExpireEffect(cfg, s, j, now);
      GrantedClaim(
        cfg, s, s1, j, s.tenants[s.jobs[j].tenant].policy.dailyExecutionMillis, cost, worker, token, duration, now);
    } else {
      GrantedClaim(
        cfg, s, s, j, s.tenants[s.jobs[j].tenant].policy.dailyExecutionMillis, cost, worker, token, duration, now);
    }
    assert j < s.nextJobId;
  }

  lemma GrantedClaim(
    cfg: Config, s0: State, s: State, j: JobId, dailyLimit: int, cost: nat, worker: WorkerId, token: Token,
    duration: nat, now: Time)
    requires j in s.jobs && duration > 0
    requires ReserveAndGrant(cfg, s0, s, j, dailyLimit, cost, worker, token, duration, now).1.Claimed?
    ensures
      var r := ReserveAndGrant(cfg, s0, s, j, dailyLimit, cost, worker, token, duration, now);
      var c := r.1.claim;
      && c == WorkerClaim(s.jobs[j].tenant, j, s.jobs[j].attemptNo + 1, worker, token)
      && ActiveClaim(r.0, c, now) && AttemptOwned(r.0, c) && r.0.nextJobId == s.nextJobId
  {
  }

  // --------------------------------------------------------------- settlement

  /**
   * The books after the settlement of attempt `k`: the whole reservation leaves its day, exactly `charge` is consumed,
   * no other day of any tenant moves, no other attempt changes, and every job that waited for the end of that day is
   * due.
   */
  ghost predicate Paid(s: State, s': State, k: AttemptKey, charge: nat, status: AttemptStatus, now: Time)
    requires k in s.attempts
  {
    var a := s.attempts[k];
    var day := DayKey(a.tenant, a.day);
    && day in s.ledger && a.reserved <= s.ledger[day].reserved && charge <= a.reserved
    && s'.ledger == s.ledger[day := LedgerRow(s.ledger[day].reserved - a.reserved, s.ledger[day].consumed + charge)]
    && k in s'.attempts && s'.attempts == s.attempts[k := s'.attempts[k]]
    && s'.attempts[k] == a.(status := status, token := None, finishedAt := Some(now), reserved := 0, consumed := charge,
                            failureCode := s'.attempts[k].failureCode)
    && s'.jobs.Keys == s.jobs.Keys
    && (forall i :: i in s.jobs && i != k.job ==> s'.jobs[i] == WakeJob(s.jobs[i], a.tenant, a.day, now))
  }

  lemma SettlementPays(
    s: State, mid: State, s': State, c: WorkerClaim, row: Job, charge: nat, status: AttemptStatus, code: Option<string>,
    now: Time)
    requires c.job in s.jobs && AttemptKey(c.job, c.attemptNo) in s.attempts
    requires
      var a := s.attempts[AttemptKey(c.job, c.attemptNo)];
      var day := DayKey(a.tenant, a.day);
      charge <= a.reserved && day in s.ledger && a.reserved <= s.ledger[day].reserved
    requires SettledBy(s, mid, c, row, charge, status, code, now)
    requires s'.jobs == mid.jobs && s'.ledger == mid.ledger && s'.attempts == mid.attempts
    ensures Paid(s, s', AttemptKey(c.job, c.attemptNo), charge, status, now)
    ensures s'.attempts[AttemptKey(c.job, c.attemptNo)].failureCode == code
    ensures s'.jobs[c.job] == WakeJob(
      row, s.attempts[AttemptKey(c.job, c.attemptNo)].tenant, s.attempts[AttemptKey(c.job, c.attemptNo)].day, now)
  {
  }

  /** What a worker that still holds the fence is charged for a result. */
  function CompletionCharge(reserved: nat, cancelled: bool, result: DurableJobResult): (c: nat)
    requires MeasuredTimes(result.cases)
    ensures c <= reserved
  {
    if |result.cases| == 0 && (cancelled || result.compileStatus == "FAILED") then reserved
    else CappedTime(result.cases, reserved)
  }

  lemma ValidResultIsMeasured(result: DurableJobResult)
    requires ValidResult(result)
    ensures MeasuredTimes(result.cases)
  {
  }

  /** The owner of the fence owns the running attempt, and the ledger holds its reservation. */
  lemma OwnerIsCovered(cfg: Config, s: State, c: WorkerClaim, lockNow: Time)
    requires Inv(cfg, s) && ActiveClaim(s, c, lockNow)
    ensures
      var k := AttemptKey(c.job, c.attemptNo);
      && AttemptOwned(s, c)
      && DayKey(s.attempts[k].tenant, s.attempts[k].day) in s.ledger
      && s.attempts[k].reserved <= s.ledger[DayKey(s.attempts[k].tenant, s.attempts[k].day)].reserved
  {
    var k := AttemptKey(c.job, c.attemptNo);
    assert HasRunningAttempt(s, c.job) && AttemptOk(s, k);
    LedgerCoversAttempt(cfg, s, k);
  }

  /** Completion by the owner of the fence always commits, and this is all it does. */
  lemma CompletionEffect(cfg: Config, s: State, c: WorkerClaim, result: DurableJobResult, now: Time, lockNow: Time)
    requires ValidConfig(cfg) && Inv(cfg, s) && ValidResult(result) && MeasuredTimes(result.cases)
    requires ActiveClaim(s, c, lockNow) && c.tenant == s.jobs[c.job].tenant
    ensures AttemptOwned(s, c)
    ensures
      var k := AttemptKey(c.job, c.attemptNo);
      var r := CompleteTx(cfg, s, c, result, now, lockNow);
      var cancelled := s.jobs[c.job].cancelRequestedAt.Some?;
      && r.1 == Done
      && Paid(
        s, r.0, k, CompletionCharge(s.attempts[k].reserved, cancelled, result),
        if cancelled then AttemptCancelled else AttemptSucceeded, now)
      && r.0.jobs[c.job] == CompletedJob(s.jobs[c.job], result, now)
      && r.0.nextJobId == s.nextJobId
  {
    var k := AttemptKey(c.job, c.attemptNo);
    OwnerIsCovered(cfg, s, c, lockNow);
    var cancelled := s.jobs[c.job].cancelRequestedAt.Some?;
    var status := if cancelled then AttemptCancelled else AttemptSucceeded;
    var row := CompletedJob(s.jobs[c.job], result, now);
    var charge := CompletionCharge(s.attempts[k].reserved, cancelled, result);
    var mid := CompletionSettles(cfg, s, c, result, now, lockNow);
    SettlementPays(s, mid, CompleteTx(cfg, s, c, result, now, lockNow).0, c, row, charge, status, None, now);
  }

  lemma CompletionSettles(
    cfg: Config, s: State, c: WorkerClaim, result: DurableJobResult, now: Time, lockNow: Time)
    returns (mid: State)
    requires ValidConfig(cfg) && Inv(cfg, s) && ValidResult(result) && MeasuredTimes(result.cases)
    requires ActiveClaim(s, c, lockNow) && c.tenant == s.jobs[c.job].tenant && AttemptOwned(s, c)
    ensures
      var k := AttemptKey(c.job, c.attemptNo);
      var r := CompleteTx(cfg, s, c, result, now, lockNow);
      var cancelled := s.jobs[c.job].cancelRequestedAt.Some?;
      && r.1 == Done
      && SettledBy(s, mid, c, CompletedJob(s.jobs[c.job], result, now), CompletionCharge(
        s.attempts[k].reserved, cancelled, result),
                   if cancelled then AttemptCancelled else AttemptSucceeded, None, now)
      && r.0.jobs == mid.jobs && r.0.ledger == mid.ledger && r.0.attempts == mid.attempts
      && r.0.nextJobId == mid.nextJobId && r.0.tenants == mid.tenants
  {
    var job := s.jobs[c.job];
    assert JobFields(job);
    var cancelled := job.cancelRequestedAt.Some?;
    var full := |result.cases| == 0 && (cancelled || result.compileStatus == "FAILED");
    mid := SettleCommits(
      cfg, s, c, CompletedJob(job, result, now), result.cases, full,
      if cancelled then AttemptCancelled else AttemptSucceeded, None, true, now);
  }

  /** An infrastructure failure reported by the owner of the fence: nothing is charged unless the failure says so. */
  lemma FailureEffect(cfg: Config, s: State, c: WorkerClaim, f: InfrastructureFailure, now: Time, lockNow: Time)
    requires ValidConfig(cfg) && Inv(cfg, s) && ValidFailure(f)
    requires ActiveClaim(s, c, lockNow) && c.tenant == s.jobs[c.job].tenant && ValidPolicy(s.tenants[c.tenant].policy)
    ensures AttemptOwned(s, c)
    ensures
      var k := AttemptKey(c.job, c.attemptNo);
      var r := FailTx(cfg, s, c, f, now, lockNow);
      var job := s.jobs[c.job];
      var d := Disposition(job, c, f, s.tenants[c.tenant].policy.maxInfrastructureTries);
      && r.1 == Done
      && Paid(
        s, r.0, k, if f.chargeFull then s.attempts[k].reserved else 0,
        if d == CancelledFailure then AttemptCancelled else AttemptFailed, now)
      && r.0.jobs[c.job].status ==
           (if d == CancelledFailure then Cancelled else if d == Requeued then Queued else Failed)
      && (d == Requeued <==>
            && job.cancelRequestedAt == None && !f.permanent
            && c.attemptNo < s.tenants[c.tenant].policy.maxInfrastructureTries)
      && r.0.jobs[c.job] == WakeJob(FailedJob(job, d, f, now), s.attempts[k].tenant, s.attempts[k].day, now)
      && r.0.attempts[k].failureCode == (if d == CancelledFailure then None else Some(f.code))
      && r.0.jobs[c.job].attemptNo == c.attemptNo
      && r.0.nextJobId == s.nextJobId
  {
    var job := s.jobs[c.job];
    var k := AttemptKey(c.job, c.attemptNo);
    OwnerIsCovered(cfg, s, c, lockNow);
    var d := Disposition(job, c, f, s.tenants[job.tenant].policy.maxInfrastructureTries);
    var mid := FailureSettles(cfg, s, c, f, now, lockNow);
    SettlementPays(s, mid, FailTx(cfg, s, c, f, now, lockNow).0, c, FailedJob(job, d, f, now),
                   if f.chargeFull then s.attempts[k].reserved else 0,
                   if d == CancelledFailure
                   then AttemptCancelled else AttemptFailed, if d == CancelledFailure then None else Some(f.code), now);
  }

  lemma FailureSettles(
    cfg: Config, s: State, c: WorkerClaim, f: InfrastructureFailure, now: Time, lockNow: Time)
    returns (mid: State)
    requires ValidConfig(cfg) && Inv(cfg, s) && ValidFailure(f)
    requires ActiveClaim(s, c, lockNow) && c.tenant == s.jobs[c.job].tenant && ValidPolicy(s.tenants[c.tenant].policy)
    requires AttemptOwned(s, c)
    ensures
      var k := AttemptKey(c.job, c.attemptNo);
      var r := FailTx(cfg, s, c, f, now, lockNow);
      var d := Disposition(s.jobs[c.job], c, f, s.tenants[c.tenant].policy.maxInfrastructureTries);
      && r.1 == Done
      && SettledBy(s, mid, c, FailedJob(s.jobs[c.job], d, f, now), if f.chargeFull then s.attempts[k].reserved else 0,
                   if d == CancelledFailure
                   then AttemptCancelled else AttemptFailed, if d == CancelledFailure then None else Some(f.code), now)
      && r.0.jobs == mid.jobs && r.0.ledger == mid.ledger && r.0.attempts == mid.attempts
      && r.0.nextJobId == mid.nextJobId && r.0.tenants == mid.tenants
  {
    var job := s.jobs[c.job];
    assert JobFields(job);
    var d := Disposition(job, c, f, s.tenants[c.tenant].policy.maxInfrastructureTries);
    mid := SettleCommits(cfg, s, c, FailedJob(job, d, f, now), [], f.chargeFull,
                         if d == CancelledFailure then AttemptCancelled else AttemptFailed,
                         if d == CancelledFailure then None else Some(f.code), d != Requeued, now);
  }

  /** Every other completion or failure report leaves all tables alone. */
  lemma CompletionRefused(cfg: Config, s: State, c: WorkerClaim, result: DurableJobResult, now: Time, lockNow: Time)
    requires Inv(cfg, s)
    requires !(ValidResult(result) && ActiveClaim(s, c, lockNow) && c.tenant == s.jobs[c.job].tenant)
    ensures CompleteTx(cfg, s, c, result, now, lockNow).0 == s && CompleteTx(cfg, s, c, result, now, lockNow).1 != Done
  {
  }

  lemma FailureRefused(cfg: Config, s: State, c: WorkerClaim, f: InfrastructureFailure, now: Time, lockNow: Time)
    requires Inv(cfg, s)
    requires !(&& ValidFailure(f) && ActiveClaim(s, c, lockNow) && c.tenant == s.jobs[c.job].tenant
               && ValidPolicy(s.tenants[c.tenant].policy))
    ensures FailTx(cfg, s, c, f, now, lockNow).0 == s && FailTx(cfg, s, c, f, now, lockNow).1 != Done
  {
    ForeignTenantIsRejected(cfg, s, c);
  }

  /** A claim that settles its attempt gives up the fence by doing so. */
  lemma CompletionSupersedes(cfg: Config, s: State, c: WorkerClaim, result: DurableJobResult, now: Time, lockNow: Time)
    requires ValidConfig(cfg) && Inv(cfg, s) && CompleteTx(cfg, s, c, result, now, lockNow).1 == Done
    ensures Superseded(CompleteTx(cfg, s, c, result, now, lockNow).0, c)
  {
    ValidResultIsMeasured(result);
    ForeignTenantIsRejected(cfg, s, c);
    assert c.tenant == s.jobs[c.job].tenant;
    assert c.job < s.nextJobId;
    CompletionEffect(cfg, s, c, result, now, lockNow);
  }

  lemma FailureSupersedes(cfg: Config, s: State, c: WorkerClaim, f: InfrastructureFailure, now: Time, lockNow: Time)
    requires ValidConfig(cfg) && Inv(cfg, s) && FailTx(cfg, s, c, f, now, lockNow).1 == Done
    ensures Superseded(FailTx(cfg, s, c, f, now, lockNow).0, c)
  {
    ForeignTenantIsRejected(cfg, s, c);
    assert c.tenant == s.jobs[c.job].tenant;
    assert c.job < s.nextJobId;
    FailureEffect(cfg, s, c, f, now, lockNow);
  }

  // ------------------------------------------------------------- announcements

  /** How many events of job `j` the steps of a run insert. */
  ghost function EventsInserted(cfg: Config, s: State, steps: seq<Step>, j: JobId): nat
    decreases |steps|
  {
    if steps == [] then 0
    else
      var s1 := Apply(cfg, s, steps[0]);
      (if j !in s.outbox && j in s1.outbox then 1 else 0) + EventsInserted(cfg, s1, steps[1..], j)
  }

  /** A job that is terminal, or already deleted, is announced no more. */
  lemma {:induction false} NoSecondEvent(cfg: Config, s: State, steps: seq<Step>, j: JobId)
    requires ValidConfig(cfg) && Inv(cfg, s) && j < s.nextJobId
    requires j in s.jobs ==> Terminal(s.jobs[j].status)
    ensures EventsInserted(cfg, s, steps, j) == 0
    ensures j in Run(cfg, s, steps).jobs ==> Terminal(Run(cfg, s, steps).jobs[j].status)
    decreases |steps|
  {
    if steps != [] {
      StepAdvances(cfg, s, steps[0]);
      StepKeepsInv(cfg, s, steps[0]);
      NoSecondEvent(cfg, Apply(cfg, s, steps[0]), steps[1..], j);
    }
  }

  /**
   * A job with a callback is announced exactly once, in the very step that ends it; a live job is not announced; and a
   * job without a callback never is.
   */
  lemma {:induction false} ExactlyOneEvent(cfg: Config, s: State, steps: seq<Step>, j: JobId)
    requires ValidConfig(cfg) && Inv(cfg, s) && j in s.jobs && !Terminal(s.jobs[j].status)
    ensures
      var s' := Run(cfg, s, steps);
      var ended := j !in s'.jobs || Terminal(s'.jobs[j].status);
      EventsInserted(cfg, s, steps, j) == if ended && s.jobs[j].callback.Some? then 1 else 0
    decreases |steps|
  {
    if steps != [] {
      var s1 := Apply(cfg, s, steps[0]);
      StepAdvances(cfg, s, steps[0]);
      StepKeepsInv(cfg, s, steps[0]);
      assert j < s.nextJobId && j in s1.jobs && JobAdvances(s.jobs[j], s1.jobs[j]);
      assert j in s.outbox ==> EventOk(s, j);
      if Terminal(s1.jobs[j].status) {
        NoSecondEvent(cfg, s1, steps[1..], j);
      } else {
        ExactlyOneEvent(cfg, s1, steps[1..], j);
      }
    }
  }

  /** An event in the outbox says what its job's row says, and no live job has one. */
  lemma EventsTellTheTruth(cfg: Config, s: State, j: JobId)
    requires Inv(cfg, s) && j in s.outbox
    ensures j in s.jobs && Terminal(s.jobs[j].status)
    ensures
      var p := s.outbox[j].body;
      && p.job == j && p.tenant == s.jobs[j].tenant
      && p.status == s.jobs[j].status && p.result == s.jobs[j].result && p.failureCode == s.jobs[j].failureCode
  {
  }

  // -------------------------------------------------------------- cancellation

  /** The worker's question: under the fence, has the job been asked to stop? */
  function ClaimCancelled(s: State, c: WorkerClaim, now: Time): Option<bool>
  {
    if !ActiveClaim(s, c, now) then None else Some(s.jobs[c.job].cancelRequestedAt.Some?)
  }

  /** The result a cancelled worker sends: it is valid, it says ACCEPTED and it has no cases. */
  function Placeholder(): DurableJobResult
  {
    DurableJobResult("ACCEPTED", "SUCCEEDED", 0, 0, None, None, [])
  }

  lemma PlaceholderIsValid()
    ensures ValidResult(Placeholder())
  {
    PlaceholderLabels();
    assert ValidHeader(Placeholder());
    assert ValidCases(false, []);
  }

  lemma PlaceholderLabels()
    ensures ValidLabel("ACCEPTED", 64) && ValidLabel("SUCCEEDED", 64)
  {
    AsciiLabel("ACCEPTED", 64);
    AsciiLabel("SUCCEEDED", 64);
  }

  /** Once recorded, a cancellation is never cleared, and the job neither succeeds nor publishes a result. */
  lemma CancellationIsFinal(cfg: Config, s: State, steps: seq<Step>, j: JobId)
    requires ValidConfig(cfg) && Inv(cfg, s) && j in s.jobs && s.jobs[j].cancelRequestedAt.Some?
    ensures
      var s' := Run(cfg, s, steps);
      && (j in s'.jobs ==>
            && s'.jobs[j].cancelRequestedAt == s.jobs[j].cancelRequestedAt
            && s'.jobs[j].status != Succeeded && s'.jobs[j].status != Queued && s'.jobs[j].result == None)
      && (j in s'.outbox ==> s'.outbox[j].body.result == None && s'.outbox[j].body.status != Succeeded)
  {
    var s' := Run(cfg, s, steps);
    assert JobFields(s.jobs[j]) && j < s.nextJobId;
    RunIsLater(cfg, s, steps);
    assert j in s'.jobs ==> JobFields(s'.jobs[j]);
    if j in s'.outbox {
      EventsTellTheTruth(cfg, s', j);
    }
  }

  /**
   * A worker that has seen the cancellation and sends the placeholder never persists it: whatever ran in between,
   * either the claim is stale and nothing changes, or the job ends CANCELLED without a result and is charged its whole
   * reservation.
   */
  lemma PlaceholderIsNeverPersisted(
    cfg: Config, s: State, c: WorkerClaim, seenAt: Time, steps: seq<Step>, now: Time, lockNow: Time)
    requires ValidConfig(cfg) && Inv(cfg, s) && ClaimCancelled(s, c, seenAt) == Some(true)
    requires c.tenant == s.jobs[c.job].tenant
    ensures
      var s1 := Run(cfg, s, steps);
      var k := AttemptKey(c.job, c.attemptNo);
      var r := CompleteTx(cfg, s1, c, Placeholder(), now, lockNow);
      if !ActiveClaim(s1, c, lockNow) then r == (s1, Stale)
      else
        && r.1 == Done && c.job in r.0.jobs
        && r.0.jobs[c.job].status == Cancelled && r.0.jobs[c.job].result == None
        && k in s1.attempts && Paid(s1, r.0, k, s1.attempts[k].reserved, AttemptCancelled, now)
  {
    var s1 := Run(cfg, s, steps);
    RunIsLater(cfg, s, steps);
    assert c.job < s.nextJobId;
    PlaceholderIsValid();
    if ActiveClaim(s1, c, lockNow) {
      assert JobAdvances(s.jobs[c.job], s1.jobs[c.job]);
      PlaceholderSettles(cfg, s1, c, now, lockNow);
    }
  }

  lemma PlaceholderSettles(cfg: Config, s: State, c: WorkerClaim, now: Time, lockNow: Time)
    requires ValidConfig(cfg) && Inv(cfg, s) && ActiveClaim(s, c, lockNow)
    requires c.tenant == s.jobs[c.job].tenant && s.jobs[c.job].cancelRequestedAt.Some?
    ensures
      var k := AttemptKey(c.job, c.attemptNo);
      var r := CompleteTx(cfg, s, c, Placeholder(), now, lockNow);
      && r.1 == Done && c.job in r.0.jobs
      && r.0.jobs[c.job].status == Cancelled && r.0.jobs[c.job].result == None
      && k in s.attempts && Paid(s, r.0, k, s.attempts[k].reserved, AttemptCancelled, now)
  {
    PlaceholderIsValid();
    CompletionEffect(cfg, s, c, Placeholder(), now, lockNow);
  }
}
