/** The terminal-event outbox: leased, bounded, fenced delivery of one event per job. */
module Outbox {
  import opened Options
  import opened Events

  const MAX_RETRY_AFTER: nat := 15 * MINUTE

  datatype RowStatus = Pending | Delivering | Delivered | Dead

  datatype Lease = Lease(worker: WorkerId, token: Token, until: Time)

  datatype Row = Row(
    tenant: TenantId,
    callback: CallbackId,
    body: Payload,
    status: RowStatus,
    attemptCount: nat,
    lease: Option<Lease>,
    nextAttemptAt: Time,
    createdAt: Time,
    expiresAt: Time,
    lastHttpStatus: Option<int>,
    lastErrorCode: Option<string>,
    deliveredAt: Option<Time>,
    deadAt: Option<Time>)

  /** One row per job: the table has a unique key on the job. */
  type Rows = map<JobId, Row>

  datatype Claim = Claim(job: JobId, attemptCount: nat, worker: WorkerId, token: Token, until: Time)

  /** What the claiming transaction reads about the destination. */
  datatype Destination = Destination(tenantActive: bool, callbackDisabled: bool, callbackUsable: bool)

  datatype Disposition = DeliveredOutcome | RetryOutcome | PermanentFailure

  datatype Settlement = Settlement(
    disposition: Disposition,
    httpStatus: int,
    errorCode: string,
    retryAt: Option<Time>,
    retryDelay: int)

  predicate RetryableHttpStatus(status: int)
  {
    status == 408 || status == 425 || status == 429 || 500 <= status <= 599
  }

  predicate PermanentHttpStatus(status: int)
  {
    300 <= status <= 499 && !RetryableHttpStatus(status)
  }

  predicate ValidSettlement(s: Settlement)
  {
    && (s.httpStatus == 0 || 100 <= s.httpStatus <= 599)
    && match s.disposition
       case DeliveredOutcome =>
         200 <= s.httpStatus <= 299 && s.errorCode == "" && s.retryAt == None && s.retryDelay == 0
       case RetryOutcome =>
         && s.retryDelay >= 0
         && (s.retryAt.Some? != (0 < s.retryDelay <= MAX_RETRY_AFTER))
         && (|| (s.errorCode == "network" && s.httpStatus == 0)
             || (s.errorCode == "http_retryable" && RetryableHttpStatus(s.httpStatus)))
       case PermanentFailure =>
         && s.retryAt == None && s.retryDelay == 0
         && if s.errorCode == "http_permanent" then PermanentHttpStatus(s.httpStatus)
            else
              && s.httpStatus == 0
              && s.errorCode in {"unsafe_destination", "configuration", "invalid_delivery", "callback_decrypt",
                                 "delivery_expired"}
  }

  /** The row as `insertTerminalWebhookEvent` writes it. */
  function NewRow(tenant: TenantId, callback: CallbackId, body: Payload, now: Time, window: nat): Row
  {
    Row(tenant, callback, body, Pending, 0, None, now, now, now + window, None, None, None, None)
  }

  predicate Due(row: Row, now: Time)
  {
    || (row.status == Pending && row.nextAttemptAt <= now)
    || (row.status == Delivering && row.lease.Some? && row.lease.value.until <= now)
  }

  /** Why a due row is given up instead of leased; the order of the tests is the order of the codes. */
  function DeadCode(row: Row, d: Destination, leaseNow: Time, maxAttempts: nat): Option<string>
  {
    if !d.tenantActive then Some("tenant_disabled")
    else if d.callbackDisabled then Some("callback_disabled")
    else if row.expiresAt <= leaseNow then Some("delivery_expired")
    else if row.attemptCount >= maxAttempts then Some("attempts_exhausted")
    else if !d.callbackUsable then Some("callback_invalid")
    else None
  }

  function Bury(row: Row, http: Option<int>, code: string, now: Time): Row
  {
    row.(status := Dead, lease := None, lastHttpStatus := http, lastErrorCode := Some(code), deadAt := Some(now))
  }

  function LeaseRow(row: Row, worker: WorkerId, token: Token, until: Time): Row
  {
    row.(status := Delivering, attemptCount := row.attemptCount + 1, lease := Some(Lease(worker, token, until)))
  }

  /** One claim transaction on the row it has locked: `now` selects, the later `leaseNow` decides. */
  function ClaimWebhook(
    rows: Rows, job: JobId, d: Destination, worker: WorkerId, token: Token,
    duration: nat, now: Time, leaseNow: Time, maxAttempts: nat): (Rows, Option<Claim>)
  {
    if job !in rows || !Due(rows[job], now) then (rows, None)
    else
      var row := rows[job];
      match DeadCode(row, d, leaseNow, maxAttempts)
      case Some(code) => (rows[job := Bury(row, row.lastHttpStatus, code, leaseNow)], None)
      case None =>
        var until := leaseNow + duration;
        (rows[job := LeaseRow(row, worker, token, until)], Some(Claim(job, row.attemptCount + 1, worker, token, until)))
  }

  /** Does this claim still own its row? */
  predicate Owns(rows: Rows, c: Claim, now: Time)
  {
    && c.job in rows
    && rows[c.job].status == Delivering
    && rows[c.job].attemptCount == c.attemptCount
    && rows[c.job].lease.Some?
    && rows[c.job].lease.value.worker == c.worker
    && rows[c.job].lease.value.token == c.token
    && now < rows[c.job].lease.value.until
  }

  function HttpColumn(status: int): Option<int>
  {
    if status == 0 then None else Some(status)
  }

  /** The next retry, or nothing if an absolute time is not within the next fifteen minutes. */
  function RetryTime(s: Settlement, now: Time): Option<Time>
  {
    if s.retryDelay > 0 then Some(now + s.retryDelay)
    else if s.retryAt == None || s.retryAt.value <= now || s.retryAt.value - now > MAX_RETRY_AFTER then None
    else s.retryAt
  }

  function SettledRow(row: Row, s: Settlement, now: Time, maxAttempts: nat): Option<Row>
  {
    var http := HttpColumn(s.httpStatus);
    match s.disposition
    case DeliveredOutcome =>
      Some(row.(status := Delivered, lease := None, lastHttpStatus := http, lastErrorCode := None,
                deliveredAt := Some(now)))
    case PermanentFailure =>
      Some(Bury(row, http, s.errorCode, now))
    case RetryOutcome =>
      match RetryTime(s, now)
      case None => None
      case Some(at) =>
        if row.attemptCount >= maxAttempts || row.expiresAt <= at then Some(Bury(row, http, s.errorCode, now))
        else Some(row.(status := Pending, lease := None, nextAttemptAt := at,
                       lastHttpStatus := http, lastErrorCode := Some(s.errorCode)))
  }

  datatype SettleOutcome = Settled | Invalid | LeaseLost

  function SettleWebhook(rows: Rows, c: Claim, s: Settlement, now: Time, maxAttempts: nat): (Rows, SettleOutcome)
  {
    if c.attemptCount == 0 || !ValidSettlement(s) then (rows, Invalid)
    else if !Owns(rows, c, now) then (rows, LeaseLost)
    else
      match SettledRow(rows[c.job], s, now, maxAttempts)
      case None => (rows, Invalid)
      case Some(row) => (rows[c.job := row], Settled)
  }

  predicate Sweepable(row: Row, now: Time, retention: nat)
  {
    || (row.status == Delivered && row.deliveredAt.Some? && row.deliveredAt.value + retention <= now)
    || (row.status == Dead && row.deadAt.Some? && row.deadAt.value + retention <= now)
  }

  function Sweep(rows: Rows, ids: set<JobId>, now: Time, retention: nat): Rows
  {
    map j | j in rows && !(j in ids && Sweepable(rows[j], now, retention)) :: rows[j]
  }

  datatype Step =
    | ClaimStep(
      job: JobId, destination: Destination, worker: WorkerId, token: Token, duration: nat, now: Time, leaseNow: Time)
    | SettleStep(claim: Claim, settlement: Settlement, now: Time)
    | SweepStep(ids: set<JobId>, now: Time, retention: nat)

  function Apply(rows: Rows, step: Step, maxAttempts: nat): Rows
  {
    match step
    case ClaimStep(job, d, worker, token, duration, now, leaseNow) =>
      ClaimWebhook(rows, job, d, worker, token, duration, now, leaseNow, maxAttempts).0
    case SettleStep(claim, settlement, now) => SettleWebhook(rows, claim, settlement, now, maxAttempts).0
    case SweepStep(ids, now, retention) => Sweep(rows, ids, now, retention)
  }

  function Run(rows: Rows, steps: seq<Step>, maxAttempts: nat): Rows
  {
    if steps == [] then rows else Run(Apply(rows, steps[0], maxAttempts), steps[1..], maxAttempts)
  }

  // ---------------------------------------------------------------- invariants

  predicate RowOk(row: Row, maxAttempts: nat)
  {
    && (row.lease.Some? <==> row.status == Delivering)
    && row.attemptCount <= maxAttempts
    && (row.status == Delivering ==> row.attemptCount > 0)
    && (row.status == Pending ==> row.nextAttemptAt < row.expiresAt)
    && (row.status == Delivered <==> row.deliveredAt.Some?)
    && (row.status == Dead <==> row.deadAt.Some?)
  }

  ghost predicate RowsOk(rows: Rows, maxAttempts: nat)
  {
    forall j :: j in rows ==> RowOk(rows[j], maxAttempts)
  }

  /** What delivery may do to one row between two states of a run. */
  predicate RowAdvances(before: Row, after: Row)
  {
    && after.body == before.body
    && after.tenant == before.tenant
    && after.callback == before.callback
    && after.createdAt == before.createdAt
    && after.expiresAt == before.expiresAt
    && before.attemptCount <= after.attemptCount
    && (before.status.Delivered? || before.status.Dead? ==> after == before)
    && (after.attemptCount == before.attemptCount && before.status != Delivering ==> after.status != Delivering)
  }

  ghost predicate RowsAdvance(before: Rows, after: Rows)
  {
    forall j :: j in after ==> j in before && RowAdvances(before[j], after[j])
  }

  lemma StepKeepsRowsOk(rows: Rows, step: Step, maxAttempts: nat)
    requires RowsOk(rows, maxAttempts)
    ensures RowsOk(Apply(rows, step, maxAttempts), maxAttempts)
    ensures RowsAdvance(rows, Apply(rows, step, maxAttempts))
  {
    match step
    case ClaimStep(job, d, worker, token, duration, now, leaseNow) =>
      ClaimedRow(rows, job, d, worker, token, duration, now, leaseNow, maxAttempts);
    case SettleStep(claim, settlement, now) => SettledRowOk(rows, claim, settlement, now, maxAttempts);
    case SweepStep(_, _, _) =>
  }

  lemma ClaimedRow(
    rows: Rows, job: JobId, d: Destination, worker: WorkerId, token: Token, duration: nat, now: Time, leaseNow: Time,
    maxAttempts: nat)
    requires RowsOk(rows, maxAttempts)
    ensures
      var after := ClaimWebhook(rows, job, d, worker, token, duration, now, leaseNow, maxAttempts).0;
      RowsOk(after, maxAttempts) && RowsAdvance(rows, after)
  {
    var after := ClaimWebhook(rows, job, d, worker, token, duration, now, leaseNow, maxAttempts).0;
    forall j | j in after && j != job ensures j in rows && after[j] == rows[j] {}
  }

  lemma SettledRowOk(rows: Rows, c: Claim, s: Settlement, now: Time, maxAttempts: nat)
    requires RowsOk(rows, maxAttempts)
    ensures
      var after := SettleWebhook(rows, c, s, now, maxAttempts).0;
      RowsOk(after, maxAttempts) && RowsAdvance(rows, after)
  {
    if c.job in rows && Owns(rows, c, now) {
      SettledRowAdvances(rows[c.job], s, now, maxAttempts);
    }
  }

  /** Every way to settle a row that is being delivered. */
  lemma SettledRowAdvances(row: Row, s: Settlement, now: Time, maxAttempts: nat)
    requires RowOk(row, maxAttempts) && row.status == Delivering
    ensures
      var after := SettledRow(row, s, now, maxAttempts);
      after.Some? ==> RowOk(after.value, maxAttempts) && RowAdvances(row, after.value)
  {
  }

  /**
   * Delivery over whole runs: a lease is held exactly while delivering, the attempt budget is never exceeded, a
   * pending row is due before it expires, delivered and dead rows are frozen until swept, and the body never changes.
   */
  lemma {:induction false} RunKeepsRowsOk(rows: Rows, steps: seq<Step>, maxAttempts: nat)
    requires RowsOk(rows, maxAttempts)
    ensures RowsOk(Run(rows, steps, maxAttempts), maxAttempts)
    ensures RowsAdvance(rows, Run(rows, steps, maxAttempts))
    decreases |steps|
  {
    if steps != [] {
      StepKeepsRowsOk(rows, steps[0], maxAttempts);
      RunKeepsRowsOk(Apply(rows, steps[0], maxAttempts), steps[1..], maxAttempts);
    }
  }

  /** The attempt this claim was granted is over. */
  predicate Superseded(rows: Rows, c: Claim)
  {
    c.job in rows ==>
      || c.attemptCount < rows[c.job].attemptCount
      || (c.attemptCount == rows[c.job].attemptCount && rows[c.job].status != Delivering)
  }

  /** A settlement from an attempt that is over changes nothing, now or after any further run. */
  lemma SupersededClaimIsPowerless(rows: Rows, steps: seq<Step>, c: Claim, s: Settlement, now: Time, maxAttempts: nat)
    requires RowsOk(rows, maxAttempts) && Superseded(rows, c)
    ensures
      var later := Run(rows, steps, maxAttempts);
      Superseded(later, c) && SettleWebhook(later, c, s, now, maxAttempts).0 == later
  {
    RunKeepsRowsOk(rows, steps, maxAttempts);
  }

  /** How often a run leases the event of one job. */
  function ClaimsGranted(rows: Rows, steps: seq<Step>, job: JobId, maxAttempts: nat): nat
  {
    if steps == [] then 0
    else
      (if steps[0].ClaimStep? && steps[0].job == job &&
          ClaimWebhook(rows, job, steps[0].destination, steps[0].worker, steps[0].token,
                       steps[0].duration, steps[0].now, steps[0].leaseNow, maxAttempts).1.Some?
       then 1 else 0)
      + ClaimsGranted(Apply(rows, steps[0], maxAttempts), steps[1..], job, maxAttempts)
  }

  /** No run leases an event more often than its remaining budget, whatever workers, crashes and sweeps do. */
  lemma {:induction false} ClaimBudget(rows: Rows, steps: seq<Step>, job: JobId, maxAttempts: nat)
    requires RowsOk(rows, maxAttempts)
    ensures ClaimsGranted(rows, steps, job, maxAttempts) <=
            if job in rows then maxAttempts - rows[job].attemptCount else 0
    decreases |steps|
  {
    if steps != [] {
      StepKeepsRowsOk(rows, steps[0], maxAttempts);
      ClaimBudget(Apply(rows, steps[0], maxAttempts), steps[1..], job, maxAttempts);
    }
  }

  /** A settlement accepted by its owner ends the attempt, and says how. */
  lemma SettlementOutcome(rows: Rows, c: Claim, s: Settlement, now: Time, maxAttempts: nat)
    requires RowsOk(rows, maxAttempts)
    requires SettleWebhook(rows, c, s, now, maxAttempts).1 == Settled
    ensures
      var row := rows[c.job];
      var after := SettleWebhook(rows, c, s, now, maxAttempts).0[c.job];
      && Superseded(SettleWebhook(rows, c, s, now, maxAttempts).0, c)
      && after.attemptCount == row.attemptCount == c.attemptCount
      && (after.status == Delivered <==> s.disposition == DeliveredOutcome)
      && (after.status == Pending ==>
            && s.disposition == RetryOutcome && after.attemptCount < maxAttempts
            && now < after.nextAttemptAt < after.expiresAt
            && (after.nextAttemptAt <= now + MAX_RETRY_AFTER <==> s.retryDelay <= MAX_RETRY_AFTER))
      && (s.disposition == RetryOutcome && after.status == Dead && s.retryDelay <= MAX_RETRY_AFTER ==>
            row.attemptCount == maxAttempts || row.expiresAt <= now + MAX_RETRY_AFTER)
  {
  }

  /**
   * The fifteen-minute bound on a retry is not enforced by the validity check alone: a settlement that carries both
   * an absolute time and an oversized delay is accepted, and the delay wins.
   */
  lemma OversizedDelayIsAccepted()
    ensures
      var s := Settlement(RetryOutcome, 0, "network", Some(1), 2 * MAX_RETRY_AFTER);
      ValidSettlement(s) && RetryTime(s, 0) == Some(2 * MAX_RETRY_AFTER)
  {
  }

  const MAINTENANCE_BUDGET: nat := 64
  const MAX_DELIVERY_LEASE: nat := 15 * MINUTE

  /** What one round of the claim loop selects: a row with its destination, a fresh token and the two clock readings. */
  datatype Selection = Selection(job: JobId, destination: Destination, token: Token, now: Time, leaseNow: Time)

  function ClaimStepOf(pick: Selection, worker: WorkerId, duration: nat): Step
  {
    ClaimStep(pick.job, pick.destination, worker, pick.token, duration, pick.now, pick.leaseNow)
  }

  function ClaimSteps(picks: seq<Selection>, worker: WorkerId, duration: nat): seq<Step>
  {
    seq(|picks|, i requires 0 <= i < |picks| => ClaimStepOf(picks[i], worker, duration))
  }

  lemma {:induction false} RunExtends(rows: Rows, steps: seq<Step>, step: Step, maxAttempts: nat)
    ensures Run(rows, steps + [step], maxAttempts) == Apply(Run(rows, steps, maxAttempts), step, maxAttempts)
    decreases |steps|
  {
    if steps == [] {
      assert [step][1..] == [];
    } else {
      assert (steps + [step])[1..] == steps[1..] + [step];
      RunExtends(Apply(rows, steps[0], maxAttempts), steps[1..], step, maxAttempts);
    }
  }

  lemma OneMoreClaim(rows: Rows, picks: seq<Selection>, n: nat, worker: WorkerId, duration: nat, maxAttempts: nat)
    requires n < |picks|
    ensures Run(rows, ClaimSteps(picks[..n + 1], worker, duration), maxAttempts) ==
            var before := Run(rows, ClaimSteps(picks[..n], worker, duration), maxAttempts);
            Apply(before, ClaimStepOf(picks[n], worker, duration), maxAttempts)
  {
    var steps, step := ClaimSteps(picks[..n], worker, duration), ClaimStepOf(picks[n], worker, duration);
    assert ClaimSteps(picks[..n + 1], worker, duration) == steps + [step];
    RunExtends(rows, steps, step, maxAttempts);
  }

  /** The delivery side of the outbox table, as its transactions update it. */
  class OutboxRepository {
    var rows: Rows
    const maxAttempts: nat

    constructor (maximum: nat)
      ensures rows == map[] && maxAttempts == if maximum == 0 then 12 else maximum
    {
      rows := map[];
      maxAttempts := if maximum == 0 then 12 else maximum;
    }

    /** One claim transaction; `retry` says that it buried a row instead, and the next one may be tried. */
    method ClaimOne(
      job: JobId, d: Destination, worker: WorkerId, token: Token, duration: nat, now: Time, leaseNow: Time)
      returns (claim: Option<Claim>, retry: bool)
      modifies this
      ensures (rows, claim) == ClaimWebhook(old(rows), job, d, worker, token, duration, now, leaseNow, maxAttempts)
      ensures retry <==> job in old(rows) && Due(old(rows)[job], now) && claim == None
      ensures RowsOk(old(rows), maxAttempts) ==> RowsOk(rows, maxAttempts)
    {
      assert RowsOk(rows, maxAttempts) ==>
        RowsOk(Apply(rows, ClaimStep(job, d, worker, token, duration, now, leaseNow), maxAttempts), maxAttempts)
      by {
        if RowsOk(rows, maxAttempts) {
          StepKeepsRowsOk(rows, ClaimStep(job, d, worker, token, duration, now, leaseNow), maxAttempts);
        }
      }
      if job !in rows || !Due(rows[job], now) {
        return None, false;
      }
      var row := rows[job];
      var deadCode := "";
      if !d.tenantActive {
        deadCode := "tenant_disabled";
      } else if d.callbackDisabled {
        deadCode := "callback_disabled";
      } else if !(row.expiresAt > leaseNow) {
        deadCode := "delivery_expired";
      } else if row.attemptCount >= maxAttempts {
        deadCode := "attempts_exhausted";
      } else if !d.callbackUsable {
        deadCode := "callback_invalid";
      }
      if deadCode != "" {
        rows := rows[job := row.(status := Dead, lease := None, lastErrorCode := Some(deadCode),
                                 deadAt := Some(leaseNow))];
        return None, true;
      }
      var until := leaseNow + duration;
      rows := rows[job := row.(status := Delivering, attemptCount := row.attemptCount + 1,
                               lease := Some(Lease(worker, token, until)))];
      claim, retry := Some(Claim(job, row.attemptCount + 1, worker, token, until)), false;
    }

    /**
     * The claim loop over the due rows in the order they are selected: rows that cannot be delivered any more are
     * buried, within a budget, until one is leased.
     */
    method ClaimNext(picks: seq<Selection>, worker: WorkerId, duration: nat) returns (claim: Option<Claim>, tried: nat)
      requires RowsOk(rows, maxAttempts)
      modifies this
      ensures tried <= MAINTENANCE_BUDGET && tried <= |picks| && RowsOk(rows, maxAttempts)
      ensures rows == Run(old(rows), ClaimSteps(picks[..tried], worker, duration), maxAttempts)
      ensures duration == 0 || duration > MAX_DELIVERY_LEASE ==> tried == 0 && claim == None
      ensures claim.Some? ==>
        0 < tried && claim.value.job == picks[tried - 1].job && Owns(rows, claim.value, picks[tried - 1].leaseNow)
      ensures forall i :: 0 <= i < tried - 1 ==> picks[i].job in rows && rows[picks[i].job].status == Dead
    {
      claim, tried := None, 0;
      if duration == 0 || duration > MAX_DELIVERY_LEASE {
        return;
      }
      while tried < MAINTENANCE_BUDGET && tried < |picks|
        invariant tried <= MAINTENANCE_BUDGET && tried <= |picks| && claim == None && RowsOk(rows, maxAttempts)
        invariant rows == Run(old(rows), ClaimSteps(picks[..tried], worker, duration), maxAttempts)
        invariant forall i :: 0 <= i < tried ==> picks[i].job in rows && rows[picks[i].job].status == Dead
      {
        var pick := picks[tried];
        OneMoreClaim(old(rows), picks, tried, worker, duration, maxAttempts);
        var leased, retry := ClaimOne(
          pick.job, pick.destination, worker, pick.token, duration, pick.now, pick.leaseNow);
        tried := tried + 1;
        if !retry {
          claim := leased;
          return;
        }
      }
    }

    method Settle(c: Claim, s: Settlement, now: Time) returns (outcome: SettleOutcome)
      modifies this
      ensures (rows, outcome) == SettleWebhook(old(rows), c, s, now, maxAttempts)
    {
      if c.attemptCount == 0 || !ValidSettlement(s) {
        return Invalid;
      }
      if !Owns(rows, c, now) {
        return LeaseLost;
      }
      var row := rows[c.job];
      var http := HttpColumn(s.httpStatus);
      match s.disposition {
        case DeliveredOutcome =>
          row := row.(status := Delivered, lease := None, lastHttpStatus := http, lastErrorCode := None,
                      deliveredAt := Some(now));
        case PermanentFailure =>
          row := row.(status := Dead, lease := None, lastHttpStatus := http, lastErrorCode := Some(s.errorCode),
                      deadAt := Some(now));
        case RetryOutcome =>
          var retryAt: Time := 0;
          if s.retryDelay > 0 {
            retryAt := now + s.retryDelay;
          } else if s.retryAt == None || s.retryAt.value <= now || s.retryAt.value - now > MAX_RETRY_AFTER {
            return Invalid;
          } else {
            retryAt := s.retryAt.value;
          }
          if row.attemptCount >= maxAttempts || !(retryAt < row.expiresAt) {
            row := row.(status := Dead, lease := None, lastHttpStatus := http, lastErrorCode := Some(s.errorCode),
                        deadAt := Some(now));
          } else {
            row := row.(status := Pending, lease := None, nextAttemptAt := retryAt, lastHttpStatus := http,
                        lastErrorCode := Some(s.errorCode));
          }
      }
      rows := rows[c.job := row];
      outcome := Settled;
    }

    /** Deletes terminal rows one at a time; fewer than `limit` deletions means that nothing sweepable is left. */
    method SweepTerminal(now: Time, retention: nat, limit: nat) returns (deleted: nat, ghost ids: set<JobId>)
      modifies this
      ensures rows == Sweep(old(rows), ids, now, retention)
      ensures deleted == |ids| <= limit
      ensures ids <= old(rows).Keys && forall j :: j in ids ==> Sweepable(old(rows)[j], now, retention)
      ensures deleted < limit ==> forall j :: j in rows ==> !Sweepable(rows[j], now, retention)
    {
      ids := {};
      deleted := 0;
      var unseen := rows.Keys;
      ghost var before := rows;
      while unseen != {} && deleted < limit
        invariant unseen <= rows.Keys
        invariant ids !! unseen && ids <= before.Keys
        invariant deleted == |ids| <= limit
        invariant rows == Sweep(before, ids, now, retention)
        invariant forall j :: j in ids ==> Sweepable(before[j], now, retention)
        invariant forall j :: j in rows && j !in unseen ==> !Sweepable(rows[j], now, retention)
        decreases unseen
      {
        var j :| j in unseen;
        unseen := unseen - {j};
        if Sweepable(rows[j], now, retention) {
          rows := rows - {j};
          ids := ids + {j};
          deleted := deleted + 1;
        }
      }
    }
  }
}
