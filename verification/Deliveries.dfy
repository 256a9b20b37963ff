/** When an event is leased, given up or put off, what a settlement writes, and that no retry comes early. */
module Deliveries {
  import opened Options
  import opened Events
  import opened Outbox

  // ----------------------------------------------------------------------- claims

  /** The row waits and its time has come, or its worker has lost it. */
  predicate IsDue(row: Row, now: Time)
  {
    || (row.status == Pending && row.nextAttemptAt <= now)
    || (row.status == Delivering && row.lease.Some? && row.lease.value.until <= now)
  }

  /** The event can still be delivered. */
  predicate Deliverable(row: Row, d: Destination, leaseNow: Time, maxAttempts: nat)
  {
    && d.tenantActive && !d.callbackDisabled && d.callbackUsable
    && leaseNow < row.expiresAt && row.attemptCount < maxAttempts
  }

  /** Why an event that cannot be delivered any more is given up. */
  predicate GivenUpFor(row: Row, d: Destination, leaseNow: Time, maxAttempts: nat, code: string)
  {
    && (!d.tenantActive ==> code == "tenant_disabled")
    && (d.tenantActive && d.callbackDisabled ==> code == "callback_disabled")
    && (d.tenantActive && !d.callbackDisabled && row.expiresAt <= leaseNow ==> code == "delivery_expired")
    && (d.tenantActive && !d.callbackDisabled && leaseNow < row.expiresAt && row.attemptCount >= maxAttempts ==>
          code == "attempts_exhausted")
    && (d.tenantActive && !d.callbackDisabled && leaseNow < row.expiresAt && row.attemptCount < maxAttempts ==>
          !d.callbackUsable && code == "callback_invalid")
  }

  /**
   * A claim leases an event exactly if it is due and can still be delivered, for one more attempt and the whole
   * duration; a due event that cannot be delivered is DEAD with the reason; any other is left alone, like all others.
   */
  lemma ClaimAnswer(
    rows: Rows, job: JobId, d: Destination, worker: WorkerId, token: Token, duration: nat, now: Time, leaseNow: Time,
    maxAttempts: nat)
    ensures
      var r := ClaimWebhook(rows, job, d, worker, token, duration, now, leaseNow, maxAttempts);
      if job !in rows || !IsDue(rows[job], now) then r == (rows, None)
      else
        var row := rows[job];
        && job in r.0 && r.0 == rows[job := r.0[job]]
        && if Deliverable(row, d, leaseNow, maxAttempts) then
             && r.1 == Some(Claim(job, row.attemptCount + 1, worker, token, leaseNow + duration))
             && r.0[job] == row.(status := Delivering, attemptCount := row.attemptCount + 1,
                                 lease := Some(Lease(worker, token, leaseNow + duration)))
           else
             && r.1 == None && r.0[job].lastErrorCode.Some?
             && GivenUpFor(row, d, leaseNow, maxAttempts, r.0[job].lastErrorCode.value)
             && r.0[job] == row.(status := Dead, lease := None, lastErrorCode := r.0[job].lastErrorCode,
                                 deadAt := Some(leaseNow))
  {
  }

  // ------------------------------------------------------------------- settlements

  /** The worker still holds the event: the same attempt, its own lease, and time left. */
  predicate HoldsLease(rows: Rows, c: Claim, now: Time)
  {
    && c.job in rows
    && var row := rows[c.job];
    && row.status == Delivering && row.attemptCount == c.attemptCount && row.lease.Some?
    && row.lease.value == Lease(c.worker, c.token, row.lease.value.until) && now < row.lease.value.until
  }

  /** An absolute retry time has to be within the next fifteen minutes; a delay only has to be positive. */
  predicate HasRetryTime(s: Settlement, now: Time)
  {
    s.retryDelay > 0 || (s.retryAt.Some? && now < s.retryAt.value <= now + 15 * MINUTE)
  }

  /** When the next attempt is asked for. */
  function AskedFor(s: Settlement, now: Time): int
  {
    if s.retryDelay > 0 then now + s.retryDelay else if s.retryAt.Some? then s.retryAt.value else 0
  }

  /** The row that a settlement leaves. */
  predicate SettledAs(row: Row, s: Settlement, now: Time, maxAttempts: nat, after: Row)
  {
    var http := if s.httpStatus == 0 then None else Some(s.httpStatus);
    var dead := row.(status := Dead, lease := None, lastHttpStatus := http, lastErrorCode := Some(s.errorCode),
                     deadAt := Some(now));
    match s.disposition
    case DeliveredOutcome =>
      after == row.(status := Delivered, lease := None, lastHttpStatus := http, lastErrorCode := None,
                    deliveredAt := Some(now))
    case PermanentFailure => after == dead
    case RetryOutcome =>
      if row.attemptCount < maxAttempts && AskedFor(s, now) < row.expiresAt
      then
        && after.nextAttemptAt == AskedFor(s, now)
        && after == row.(status := Pending, lease := None, lastHttpStatus := http, lastErrorCode := Some(s.errorCode),
                         nextAttemptAt := after.nextAttemptAt)
      else after == dead
  }

  /** A settlement is taken exactly from the holder of the lease, and the row is what it says; else nothing changes. */
  lemma SettlementAnswer(rows: Rows, c: Claim, s: Settlement, now: Time, maxAttempts: nat)
    ensures
      var r := SettleWebhook(rows, c, s, now, maxAttempts);
      && (r.1 == Settled <==>
            && 0 < c.attemptCount && ValidSettlement(s) && HoldsLease(rows, c, now)
            && (s.disposition == RetryOutcome ==> HasRetryTime(s, now)))
      && (r.1 != Settled ==> r.0 == rows)
      && (r.1 == Settled ==>
            c.job in r.0 && r.0 == rows[c.job := r.0[c.job]] && SettledAs(rows[c.job], s, now, maxAttempts, r.0[c.job]))
  {
    assert Owns(rows, c, now) <==> HoldsLease(rows, c, now);
  }

  // -------------------------------------------------------------------- no early retry

  predicate WaitsUntil(rows: Rows, job: JobId, at: Time)
  {
    job in rows && rows[job].status == Pending && rows[job].nextAttemptAt == at
  }

  /** The step does not claim the event of `job` at or after `at`. */
  predicate NoClaimFrom(step: Step, job: JobId, at: Time)
  {
    step.ClaimStep? && step.job == job ==> step.now < at
  }

  lemma StepKeepsWaiting(rows: Rows, step: Step, maxAttempts: nat, job: JobId, at: Time)
    requires WaitsUntil(rows, job, at) && NoClaimFrom(step, job, at)
    ensures WaitsUntil(Apply(rows, step, maxAttempts), job, at)
  {
    match step
    case ClaimStep(other, d, worker, token, duration, now, leaseNow) =>
      ClaimAnswer(rows, other, d, worker, token, duration, now, leaseNow, maxAttempts);
    case SettleStep(claim, settlement, now) => SettlementAnswer(rows, claim, settlement, now, maxAttempts);
    case SweepStep(_, _, _) =>
  }

  lemma {:induction false} RunKeepsWaiting(rows: Rows, steps: seq<Step>, maxAttempts: nat, job: JobId, at: Time)
    requires WaitsUntil(rows, job, at)
    requires forall i :: 0 <= i < |steps| ==> NoClaimFrom(steps[i], job, at)
    ensures WaitsUntil(Run(rows, steps, maxAttempts), job, at)
    decreases |steps|
  {
    if steps != [] {
      StepKeepsWaiting(rows, steps[0], maxAttempts, job, at);
      RunKeepsWaiting(Apply(rows, steps[0], maxAttempts), steps[1..], maxAttempts, job, at);
    }
  }

  /**
   * The delay a worker reports is kept: after a retry was settled, through every run, the event is not leased before
   * the time that was asked for.
   */
  lemma RetryIsNotEarly(
    rows: Rows, c: Claim, s: Settlement, now: Time, maxAttempts: nat, steps: seq<Step>, at: Time)
    requires SettleWebhook(rows, c, s, now, maxAttempts).1 == Settled && s.disposition == RetryOutcome
    requires rows[c.job].attemptCount < maxAttempts && AskedFor(s, now) == at < rows[c.job].expiresAt
    requires forall i :: 0 <= i < |steps| ==> NoClaimFrom(steps[i], c.job, at)
    ensures WaitsUntil(Run(SettleWebhook(rows, c, s, now, maxAttempts).0, steps, maxAttempts), c.job, at)
  {
    SettlementAnswer(rows, c, s, now, maxAttempts);
    RunKeepsWaiting(SettleWebhook(rows, c, s, now, maxAttempts).0, steps, maxAttempts, c.job, at);
  }

  /** A claim before that time leases nothing. */
  lemma NotLeasedBefore(
    rows: Rows, job: JobId, at: Time, d: Destination, worker: WorkerId, token: Token, duration: nat, now: Time,
    leaseNow: Time, maxAttempts: nat)
    requires WaitsUntil(rows, job, at) && now < at
    ensures ClaimWebhook(rows, job, d, worker, token, duration, now, leaseNow, maxAttempts) == (rows, None)
  {
    ClaimAnswer(rows, job, d, worker, token, duration, now, leaseNow, maxAttempts);
  }

  // --------------------------------------------------------------------- retention

  /** How long ago an event was delivered or given up, if it was. */
  predicate EndedBefore(row: Row, time: int)
  {
    || (row.status == Delivered && row.deliveredAt.Some? && row.deliveredAt.value <= time)
    || (row.status == Dead && row.deadAt.Some? && row.deadAt.value <= time)
  }

  /** The sweep removes, of the rows it is given, exactly those that ended at least the retention ago. */
  lemma SweepAnswer(rows: Rows, ids: set<JobId>, now: Time, retention: nat)
    ensures
      var after := Sweep(rows, ids, now, retention);
      && (forall j :: j in after <==> j in rows && !(j in ids && EndedBefore(rows[j], now - retention)))
      && (forall j :: j in after ==> after[j] == rows[j])
  {
  }
}
