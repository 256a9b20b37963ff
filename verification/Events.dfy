/** Job states and the terminal webhook event that announces them. */
module Events {
  import opened Options
  import opened Results

  /** Database and lease times, in nanoseconds. */
  type Time = nat

  const MILLISECOND: nat := 1_000_000
  const SECOND: nat := 1000 * MILLISECOND
  const MINUTE: nat := 60 * SECOND
  const HOUR: nat := 60 * MINUTE
  const DAY: nat := 24 * HOUR

  type TenantId = nat
  type JobId = nat
  type CallbackId = nat
  type Token = nat
  type WorkerId = string

  datatype JobStatus = Queued | Running | Succeeded | Failed | Cancelled

  predicate Terminal(status: JobStatus)
  {
    status.Succeeded? || status.Failed? || status.Cancelled?
  }

  /** `^[A-Z][A-Z0-9_]{0,63}$`. */
  predicate ValidFailureCode(code: string)
  {
    && 1 <= |code| <= 64
    && 'A' <= code[0] <= 'Z'
    && forall i :: 0 <= i < |code| ==> 'A' <= code[i] <= 'Z' || '0' <= code[i] <= '9' || code[i] == '_'
  }

  /** The signed body: what an event says about its job. */
  datatype Payload = Payload(
    eventType: string,
    occurredAt: Time,
    tenant: TenantId,
    job: JobId,
    status: JobStatus,
    result: Option<DurableJobResult>,
    failureCode: Option<string>)

  /** The encoder refuses every job state it was not written for. */
  function EncodeTerminalEvent(
    occurredAt: Time, tenant: TenantId, job: JobId,
    status: JobStatus, result: Option<DurableJobResult>, failureCode: Option<string>): Option<Payload>
  {
    match status
    case Succeeded =>
      if result == None || failureCode.Some? || !ValidResult(result.value) then None
      else Some(Payload("judge.job.completed", occurredAt, tenant, job, status, result, None))
    case Failed =>
      if result.Some? || failureCode == None || !ValidFailureCode(failureCode.value) then None
      else Some(Payload("judge.job.failed", occurredAt, tenant, job, status, None, failureCode))
    case Cancelled =>
      if result.Some? || failureCode.Some? then None
      else Some(Payload("judge.job.cancelled", occurredAt, tenant, job, status, None, None))
    case _ => None
  }

  /** An encoded event can be read back: it determines the job's terminal state. */
  lemma EncodedEventDeterminesJob(
    at: Time, tenant: TenantId, job: JobId, status: JobStatus, result: Option<DurableJobResult>, code: Option<string>)
    requires EncodeTerminalEvent(at, tenant, job, status, result, code).Some?
    ensures
      var p := EncodeTerminalEvent(at, tenant, job, status, result, code).value;
      && Terminal(status)
      && p.job == job && p.tenant == tenant && p.occurredAt == at
      && p.status == status && p.result == result && p.failureCode == code
      && (p.eventType == "judge.job.completed" <==> status == Succeeded)
      && (p.eventType == "judge.job.failed" <==> status == Failed)
  {
  }
}
