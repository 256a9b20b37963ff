/**
 * What every transaction of the job worker keeps, whatever the interleaving, the clock readings and the policies:
 * running jobs and running attempts correspond, the ledger balances, and only terminal jobs have events.
 */
module JobInvariants {
  import opened Options
  import opened Events
  import opened Results
  import opened Sums
  import opened JobModel
  import Outbox

  // ------------------------------------------------------------------- sums

  function ReservedShare(a: Attempt, k: DayKey): nat
  {
    if a.status == AttemptRunning && a.tenant == k.tenant && a.day == k.day then a.reserved else 0
  }

  function ConsumedShare(a: Attempt, k: DayKey): nat
  {
    if a.tenant == k.tenant && a.day == k.day then a.consumed else 0
  }

  function ReservedShares(attempts: map<AttemptKey, Attempt>, k: DayKey): map<AttemptKey, nat>
  {
    map i | i in attempts :: ReservedShare(attempts[i], k)
  }

  function ConsumedShares(attempts: map<AttemptKey, Attempt>, k: DayKey): map<AttemptKey, nat>
  {
    map i | i in attempts :: ConsumedShare(attempts[i], k)
  }

  /** The reservations of all running attempts booked to this tenant and day. */
  ghost function ReservedOf(attempts: map<AttemptKey, Attempt>, k: DayKey): nat
  {
    Sum(ReservedShares(attempts, k))
  }

  /** The charges of all settled attempts booked to this tenant and day. */
  ghost function ConsumedOf(attempts: map<AttemptKey, Attempt>, k: DayKey): nat
  {
    Sum(ConsumedShares(attempts, k))
  }

  ghost predicate RowBalanced(s: State, k: DayKey)
  {
    && LedgerAt(s.ledger, k).reserved == ReservedOf(s.attempts, k)
    && LedgerAt(s.ledger, k).consumed == ConsumedOf(s.attempts, k) + ConsumedOf(s.retired, k)
  }

  /** The ledger is the sum of the attempts. */
  ghost predicate Balanced(s: State)
  {
    forall k: DayKey :: RowBalanced(s, k)
  }

  lemma AttemptWritten(attempts: map<AttemptKey, Attempt>, i: AttemptKey, a: Attempt, k: DayKey)
    ensures ReservedOf(attempts[i := a], k) ==
            ReservedOf(attempts, k) - (if i in attempts then ReservedShare(attempts[i], k) else 0) + ReservedShare(a, k)
    ensures ConsumedOf(attempts[i := a], k) ==
            ConsumedOf(attempts, k) - (if i in attempts then ConsumedShare(attempts[i], k) else 0) + ConsumedShare(a, k)
  {
    var r, c := ReservedShares(attempts, k), ConsumedShares(attempts, k);
    assert ReservedShares(attempts[i := a], k) == r[i := ReservedShare(a, k)];
    assert ConsumedShares(attempts[i := a], k) == c[i := ConsumedShare(a, k)];
    SumUpdate(r, i, ReservedShare(a, k));
    SumUpdate(c, i, ConsumedShare(a, k));
  }

  lemma RunningAttemptIsReserved(attempts: map<AttemptKey, Attempt>, i: AttemptKey, k: DayKey)
    requires i in attempts
    ensures ReservedShare(attempts[i], k) <= ReservedOf(attempts, k)
  {
    SumAtLeast(ReservedShares(attempts, k), i);
  }

  // --------------------------------------------------------------- row facts

  /** What the columns of a job say in each status. */
  predicate JobFields(job: Job)
  {
    && (job.lease.Some? <==> job.status == Running)
    && (job.status == Running ==> job.attemptNo > 0)
    && (job.status == Queued ==> job.cancelRequestedAt == None)
    && (job.completedAt.Some? <==> Terminal(job.status))
    && (job.result.Some? <==> job.status == Succeeded)
    && (job.result.Some? ==> ValidResult(job.result.value) && job.cancelRequestedAt == None)
    && (job.failureCode.Some? <==> job.status == Failed)
    && (job.failureCode.Some? ==> ValidFailureCode(job.failureCode.value))
    && (job.status == Cancelled ==> job.cancelRequestedAt.Some?)
    && (job.deferredDay.Some? ==> job.status == Queued && job.nextAttemptAt == EndOfDay(job.deferredDay.value))
  }

  ghost predicate JobRowsOk(s: State)
  {
    forall j :: j in s.jobs ==> JobFields(s.jobs[j]) && j < s.nextJobId && s.jobs[j].tenant in s.tenants
  }

  predicate HasRunningAttempt(s: State, j: JobId)
    requires j in s.jobs
  {
    var k := AttemptKey(j, s.jobs[j].attemptNo);
    k in s.attempts && s.attempts[k].status == AttemptRunning
  }

  /** An attempt belongs to its job; a running one is the job's current lease. */
  predicate AttemptOk(s: State, k: AttemptKey)
    requires k in s.attempts
  {
    var a := s.attempts[k];
    && k.job in s.jobs
    && 0 < k.no <= s.jobs[k.job].attemptNo
    && a.tenant == s.jobs[k.job].tenant
    && (a.status == AttemptRunning ==>
          && k.no == s.jobs[k.job].attemptNo
          && s.jobs[k.job].lease.Some?
          && a.worker == s.jobs[k.job].lease.value.worker
          && a.token == Some(s.jobs[k.job].lease.value.token)
          && a.leaseUntil == s.jobs[k.job].lease.value.until
          && a.reserved > 0 && a.consumed == 0)
    && (a.status != AttemptRunning ==> a.reserved == 0 && a.token == None)
  }

  ghost predicate AttemptsOk(s: State)
  {
    forall k :: k in s.attempts ==> AttemptOk(s, k)
  }

  ghost predicate RetiredOk(s: State)
  {
    forall k :: k in s.retired ==> k.job !in s.jobs && k.job < s.nextJobId && s.retired[k].status != AttemptRunning
  }

  /** Every event announces the terminal state its job is in. */
  predicate EventOk(s: State, j: JobId)
    requires j in s.outbox
  {
    var row := s.outbox[j];
    && j in s.jobs
    && Terminal(s.jobs[j].status)
    && s.jobs[j].callback == Some(row.callback)
    && s.jobs[j].tenant == row.tenant
    && EncodeTerminalEvent(row.createdAt, row.tenant, j, s.jobs[j].status, s.jobs[j].result,
                           s.jobs[j].failureCode) == Some(row.body)
  }

  ghost predicate EventsOk(cfg: Config, s: State)
  {
    && Outbox.RowsOk(s.outbox, cfg.webhookMaxAttempts)
    && forall j :: j in s.outbox ==> EventOk(s, j)
  }

  ghost predicate RunningJobsHaveAttempts(s: State, except: set<JobId>)
  {
    forall j :: j in s.jobs && s.jobs[j].status == Running && j !in except ==> HasRunningAttempt(s, j)
  }

  ghost predicate Inv(cfg: Config, s: State)
  {
    && JobRowsOk(s)
    && RunningJobsHaveAttempts(s, {})
    && AttemptsOk(s)
    && RetiredOk(s)
    && EventsOk(cfg, s)
    && Balanced(s)
  }

  /** The state inside a transaction after job `j` has lost its attempt and before its row is rewritten. */
  ghost predicate Detached(cfg: Config, s: State, j: JobId)
  {
    && j in s.jobs && !Terminal(s.jobs[j].status)
    && JobRowsOk(s)
    && RunningJobsHaveAttempts(s, {j})
    && AttemptsOk(s)
    && (forall k :: k in s.attempts && k.job == j ==> s.attempts[k].status != AttemptRunning)
    && RetiredOk(s)
    && EventsOk(cfg, s)
    && Balanced(s)
  }

  lemma QueuedJobIsDetached(cfg: Config, s: State, j: JobId)
    requires Inv(cfg, s) && j in s.jobs && s.jobs[j].status == Queued
    ensures Detached(cfg, s, j)
  {
  }

  // ----------------------------------------------------- leaving the attempt

  /** The state after the attempt of a running job has been settled and closed. */
  function Settled(s: State, k: AttemptKey, closed: Attempt, now: Time): State
    requires k in s.attempts
  {
    var a := s.attempts[k];
    var day := DayKey(a.tenant, a.day);
    var row := LedgerAt(s.ledger, day);
    s.(attempts := s.attempts[k := closed],
       jobs := Wake(s.jobs, a.tenant, a.day, now),
       ledger := s.ledger[day := LedgerRow(if row.reserved < a.reserved then 0 else row.reserved - a.reserved,
                                           row.consumed + closed.consumed)])
  }

  predicate Closes(a: Attempt, closed: Attempt)
  {
    && closed.status != AttemptRunning && closed.reserved == 0 && closed.token == None
    && closed.tenant == a.tenant && closed.day == a.day
  }

  /** The guard `reserved_millis >= ?` never fails: the ledger holds the reservation of every running attempt. */
  lemma LedgerCoversAttempt(cfg: Config, s: State, k: AttemptKey)
    requires Inv(cfg, s) && k in s.attempts && s.attempts[k].status == AttemptRunning
    ensures
      var day := DayKey(s.attempts[k].tenant, s.attempts[k].day);
      day in s.ledger && 0 < s.attempts[k].reserved <= s.ledger[day].reserved
  {
    var day := DayKey(s.attempts[k].tenant, s.attempts[k].day);
    RunningAttemptIsReserved(s.attempts, k, day);
    assert RowBalanced(s, day) && AttemptOk(s, k);
  }

  lemma SettledBalances(cfg: Config, s: State, k: AttemptKey, closed: Attempt, now: Time)
    requires Inv(cfg, s) && k in s.attempts && s.attempts[k].status == AttemptRunning
    requires Closes(s.attempts[k], closed)
    ensures Balanced(Settled(s, k, closed, now))
  {
    var s' := Settled(s, k, closed, now);
    LedgerCoversAttempt(cfg, s, k);
    assert AttemptOk(s, k);
    forall d: DayKey ensures RowBalanced(s', d) {
      assert RowBalanced(s, d);
      SettledRowBalances(s, k, closed, now, d);
    }
  }

  lemma SettledRowBalances(s: State, k: AttemptKey, closed: Attempt, now: Time, d: DayKey)
    requires RowBalanced(s, d) && k in s.attempts && s.attempts[k].status == AttemptRunning
    requires s.attempts[k].consumed == 0
    requires Closes(s.attempts[k], closed)
    requires s.attempts[k].reserved <= LedgerAt(s.ledger, DayKey(s.attempts[k].tenant, s.attempts[k].day)).reserved
    ensures RowBalanced(Settled(s, k, closed, now), d)
  {
    AttemptWritten(s.attempts, k, closed, d);
  }

  lemma WakeKeepsRows(s: State, t: TenantId, d: Day, now: Time, j: JobId)
    requires JobRowsOk(s)
    requires j in s.jobs && s.jobs[j].status == Running
    ensures
      var jobs := Wake(s.jobs, t, d, now);
      && jobs.Keys == s.jobs.Keys && jobs[j] == s.jobs[j]
      && forall i :: i in jobs ==> JobFields(jobs[i]) && SameButQueueTime(s.jobs[i], jobs[i])
  {
    forall i | i in s.jobs
      ensures JobFields(WakeJob(s.jobs[i], t, d, now)) && SameButQueueTime(s.jobs[i], WakeJob(s.jobs[i], t, d, now))
    {
      assert JobFields(s.jobs[i]);
    }
  }

  /** Waking up touches nothing but the queue time. */
  predicate SameButQueueTime(a: Job, b: Job)
  {
    b == a.(nextAttemptAt := b.nextAttemptAt, deferredDay := b.deferredDay) && (a.status != Queued ==> b == a)
  }

  lemma SettledDetaches(cfg: Config, s: State, j: JobId, closed: Attempt, now: Time)
    requires Inv(cfg, s) && j in s.jobs && s.jobs[j].status == Running
    requires Closes(s.attempts[AttemptKey(j, s.jobs[j].attemptNo)], closed)
    ensures
      var s' := Settled(s, AttemptKey(j, s.jobs[j].attemptNo), closed, now);
      Detached(cfg, s', j) && s'.jobs[j] == s.jobs[j]
  {
    var k := AttemptKey(j, s.jobs[j].attemptNo);
    assert HasRunningAttempt(s, j);
    var a := s.attempts[k];
    var s' := Settled(s, k, closed, now);
    WakeKeepsRows(s, a.tenant, a.day, now, j);
    SettledBalances(cfg, s, k, closed, now);
    SettledRows(cfg, s, j, closed, now);
  }

  lemma SettledAttempts(s: State, j: JobId, closed: Attempt, now: Time, s': State)
    requires AttemptsOk(s) && j in s.jobs && HasRunningAttempt(s, j)
    requires Closes(s.attempts[AttemptKey(j, s.jobs[j].attemptNo)], closed)
    requires s' == Settled(s, AttemptKey(j, s.jobs[j].attemptNo), closed, now)
    requires forall i :: i in s.jobs ==> i in s'.jobs && SameButQueueTime(s.jobs[i], s'.jobs[i])
    ensures AttemptsOk(s') && forall i :: i in s'.attempts && i.job == j ==> s'.attempts[i].status != AttemptRunning
  {
    var k := AttemptKey(j, s.jobs[j].attemptNo);
    forall i | i in s'.attempts ensures AttemptOk(s', i) && (i.job == j ==> s'.attempts[i].status != AttemptRunning) {
      assert i in s.attempts && AttemptOk(s, i) && AttemptOk(s, k);
      assert SameButQueueTime(s.jobs[i.job], s'.jobs[i.job]);
      assert i == AttemptKey(i.job, i.no);
    }
  }

  lemma SettledRows(cfg: Config, s: State, j: JobId, closed: Attempt, now: Time)
    requires Inv(cfg, s) && j in s.jobs && s.jobs[j].status == Running
    requires Closes(s.attempts[AttemptKey(j, s.jobs[j].attemptNo)], closed)
    ensures
      var s' := Settled(s, AttemptKey(j, s.jobs[j].attemptNo), closed, now);
      && JobRowsOk(s') && RunningJobsHaveAttempts(s', {j}) && AttemptsOk(s') && RetiredOk(s') && EventsOk(cfg, s')
      && (forall i :: i in s'.attempts && i.job == j ==> s'.attempts[i].status != AttemptRunning)
  {
    var k := AttemptKey(j, s.jobs[j].attemptNo);
    assert HasRunningAttempt(s, j);
    var a := s.attempts[k];
    var s' := Settled(s, k, closed, now);
    WakeKeepsRows(s, a.tenant, a.day, now, j);
    SettledAttempts(s, j, closed, now, s');
    forall i | i in s'.jobs && s'.jobs[i].status == Running && i != j ensures HasRunningAttempt(s', i) {
      assert SameButQueueTime(s.jobs[i], s'.jobs[i]) && HasRunningAttempt(s, i);
    }
    forall i | i in s'.outbox ensures EventOk(s', i) {
      assert EventOk(s, i) && SameButQueueTime(s.jobs[i], s'.jobs[i]);
    }
  }

  // ----------------------------------------------------- rewriting the job row

  /** The columns a transaction may not touch when it rewrites a detached job without starting an attempt. */
  predicate KeepsIdentity(before: Job, after: Job)
  {
    && after.tenant == before.tenant && after.callback == before.callback && after.attemptNo == before.attemptNo
    && after.limits == before.limits && after.source == before.source && after.requestHash == before.requestHash
  }

  lemma PutRow(cfg: Config, s: State, j: JobId, row: Job)
    requires Detached(cfg, s, j)
    requires JobFields(row) && row.status != Running && KeepsIdentity(s.jobs[j], row)
    ensures
      var s' := s.(jobs := s.jobs[j := row]);
      Inv(cfg, s') && j !in s'.outbox
  {
    var s' := s.(jobs := s.jobs[j := row]);
    assert j in s.outbox ==> EventOk(s, j);
    forall k | k in s'.attempts ensures AttemptOk(s', k) {
      assert AttemptOk(s, k);
    }
    forall i | i in s'.jobs && s'.jobs[i].status == Running ensures HasRunningAttempt(s', i) {
      assert HasRunningAttempt(s, i);
    }
    forall i | i in s'.outbox ensures EventOk(s', i) {
      assert EventOk(s, i);
    }
    BalanceFrame(s, s');
  }

  /** The balance only depends on ledger and attempts. */
  lemma BalanceFrame(s: State, s': State)
    requires Balanced(s) && s'.ledger == s.ledger && s'.attempts == s.attempts && s'.retired == s.retired
    ensures Balanced(s')
  {
    forall d: DayKey ensures RowBalanced(s', d) { assert RowBalanced(s, d); }
  }

  /** The events do not depend on a job that has none. */
  lemma EventsFrame(cfg: Config, s: State, s': State, j: JobId)
    requires EventsOk(cfg, s) && s'.outbox == s.outbox && j !in s.outbox
    requires s'.jobs - {j} == s.jobs - {j}
    ensures EventsOk(cfg, s')
  {
    forall i | i in s'.outbox ensures EventOk(s', i) {
      assert EventOk(s, i);
      assert i in s.jobs - {j} && i in s'.jobs - {j};
      assert (s'.jobs - {j})[i] == (s.jobs - {j})[i];
    }
  }

  /** Inv does not depend on the outbox except through its events. */
  lemma OutboxWritten(cfg: Config, s: State, outbox: Outbox.Rows)
    requires Inv(cfg, s) && EventsOk(cfg, s.(outbox := outbox))
    ensures Inv(cfg, s.(outbox := outbox))
  {
    var s' := s.(outbox := outbox);
    forall k | k in s'.attempts ensures AttemptOk(s', k) { assert AttemptOk(s, k); }
    forall i | i in s'.jobs && s'.jobs[i].status == Running
      ensures HasRunningAttempt(s', i)
    {
      assert HasRunningAttempt(s, i);
    }
    BalanceFrame(s, s');
  }

  /** A transition that only adds the announcement of job `j`, if it has a callback. */
  predicate Announced(s: State, s': State, j: JobId)
    requires j in s.jobs
  {
    if s.jobs[j].callback == None then s' == s
    else
      && j !in s.outbox && j in s'.outbox
      && s' == s.(outbox := s.outbox[j := s'.outbox[j]])
      && s'.outbox[j].status == Outbox.Pending
      && s'.outbox[j].attemptCount == 0
  }

  lemma EventIsEncoded(cfg: Config, s: State, j: JobId, now: Time)
    requires ValidConfig(cfg) && EventsOk(cfg, s)
    requires j in s.jobs && JobFields(s.jobs[j]) && Terminal(s.jobs[j].status) && j !in s.outbox
    requires s.jobs[j].callback.Some?
    ensures
      var r := InsertTerminalEvent(cfg, s, j, now);
      r.Some? && EventsOk(cfg, r.value) && Announced(s, r.value, j)
  {
    var s' := InsertTerminalEvent(cfg, s, j, now).value;
    forall i | i in s'.outbox ensures EventOk(s', i) {
      if i != j { assert EventOk(s, i); }
    }
  }

  /** The encoder accepts every terminal row, so the event is always inserted. */
  lemma EventIsInserted(cfg: Config, s: State, j: JobId, now: Time)
    requires ValidConfig(cfg)
    requires Inv(cfg, s) && j in s.jobs && Terminal(s.jobs[j].status) && j !in s.outbox
    ensures
      var r := InsertTerminalEvent(cfg, s, j, now);
      r.Some? && Inv(cfg, r.value) && Announced(s, r.value, j)
  {
    assert JobFields(s.jobs[j]);
    if s.jobs[j].callback.Some? {
      EventIsEncoded(cfg, s, j, now);
      OutboxWritten(cfg, s, InsertTerminalEvent(cfg, s, j, now).value.outbox);
    }
  }

  lemma FailureCodesAreValid()
    ensures ValidFailureCode("TENANT_DISABLED")
    ensures ValidFailureCode("LEASE_EXPIRED")
    ensures ValidFailureCode("DAILY_EXECUTION_LIMIT_TOO_LOW")
  {
  }

  /** Ending a detached job always commits. */
  lemma TerminateKeepsInv(cfg: Config, s: State, j: JobId, status: JobStatus, code: Option<string>, now: Time)
    requires ValidConfig(cfg) && Detached(cfg, s, j)
    requires (status == Failed && code.Some? && ValidFailureCode(code.value))
          || (status == Cancelled && code == None && s.jobs[j].cancelRequestedAt.Some?)
    ensures
      var r := Terminate(cfg, s, j, status, None, code, now);
      r.Some? && Inv(cfg, r.value) && j in r.value.jobs && r.value.jobs[j].status == status
  {
    var job := s.jobs[j].(status := status, lease := None, result := None, failureCode := code,
                          completedAt := Some(now), deferredDay := None);
    assert JobFields(s.jobs[j]);
    PutRow(cfg, s, j, job);
    EventIsInserted(cfg, s.(jobs := s.jobs[j := job]), j, now);
  }

  lemma DeferKeepsInv(cfg: Config, s: State, j: JobId, now: Time)
    requires Detached(cfg, s, j) && s.jobs[j].cancelRequestedAt == None
    ensures Inv(cfg, Defer(s, j, now))
  {
    assert JobFields(s.jobs[j]);
    var d := DayOf(now);
    PutRow(
      cfg, s, j, s.jobs[j].(status := Queued, lease := None, nextAttemptAt := EndOfDay(d), deferredDay := Some(d)));
  }

  // --------------------------------------------------------- a new attempt

  /** Booking a reservation and starting its attempt together keep the balance. */
  lemma GrantBalances(s: State, key: AttemptKey, a: Attempt, s': State)
    requires Balanced(s) && key !in s.attempts
    requires a.status == AttemptRunning && a.consumed == 0
    requires s'.attempts == s.attempts[key := a] && s'.retired == s.retired
    requires
      var k := DayKey(a.tenant, a.day);
      s'.ledger == s.ledger[k := LedgerAt(s.ledger, k).(reserved := LedgerAt(s.ledger, k).reserved + a.reserved)]
    ensures Balanced(s')
  {
    forall d: DayKey ensures RowBalanced(s', d) {
      assert RowBalanced(s, d);
      AttemptWritten(s.attempts, key, a, d);
    }
  }

  lemma GrantKeepsInv(
    cfg: Config, s: State, j: JobId, ledger: map<DayKey, LedgerRow>, cost: nat, worker: WorkerId, token: Token,
    duration: nat, now: Time)
    requires Detached(cfg, s, j) && cost > 0
    requires
      var k := DayKey(s.jobs[j].tenant, DayOf(now));
      ledger == s.ledger[k := LedgerAt(s.ledger, k).(reserved := LedgerAt(s.ledger, k).reserved + cost)]
    ensures
      var r := Grant(s.(ledger := ledger), j, cost, worker, token, duration, now);
      r.1.Claimed? ==> Inv(cfg, r.0)
  {
    var r := Grant(s.(ledger := ledger), j, cost, worker, token, duration, now);
    if r.1.Claimed? {
      GrantedKeepsInv(cfg, s, j, ledger, cost, worker, token, duration, now, r.0);
    }
  }

  /** The rows a grant leaves: the job runs under the lease of its new attempt. */
  predicate RowsGranted(s: State, j: JobId, s': State)
    requires j in s.jobs
  {
    && j in s'.jobs && s'.jobs == s.jobs[j := s'.jobs[j]]
    && s'.jobs[j].attemptNo == s.jobs[j].attemptNo + 1 && s'.jobs[j].tenant == s.jobs[j].tenant
    && JobFields(s'.jobs[j]) && s'.jobs[j].status == Running
    && var key := AttemptKey(j, s'.jobs[j].attemptNo);
    && key in s'.attempts && s'.attempts == s.attempts[key := s'.attempts[key]]
    && s'.attempts[key].status == AttemptRunning && s'.attempts[key].tenant == s.jobs[j].tenant
    && s'.attempts[key].worker == s'.jobs[j].lease.value.worker
    && s'.attempts[key].token == Some(s'.jobs[j].lease.value.token)
    && s'.attempts[key].leaseUntil == s'.jobs[j].lease.value.until
    && s'.attempts[key].reserved > 0 && s'.attempts[key].consumed == 0
    && s'.tenants == s.tenants && s'.outbox == s.outbox && s'.retired == s.retired && s'.nextJobId == s.nextJobId
  }

  lemma GrantUnfolds(
    s: State, j: JobId, ledger: map<DayKey, LedgerRow>, cost: nat, worker: WorkerId, token: Token, duration: nat,
    now: Time, s': State)
    requires j in s.jobs && JobFields(s.jobs[j]) && !Terminal(s.jobs[j].status) && cost > 0
    requires
      var r := Grant(s.(ledger := ledger), j, cost, worker, token, duration, now);
      r.1.Claimed? && r.0 == s'
    ensures RowsGranted(s, j, s') && s'.ledger == ledger
    ensures
      var a := s'.attempts[AttemptKey(j, s.jobs[j].attemptNo + 1)];
      a.day == DayOf(now) && a.reserved == cost
  {
  }

  lemma GrantedKeepsInv(
    cfg: Config, s: State, j: JobId, ledger: map<DayKey, LedgerRow>, cost: nat, worker: WorkerId, token: Token,
    duration: nat, now: Time, s': State)
    requires Detached(cfg, s, j) && cost > 0
    requires
      var k := DayKey(s.jobs[j].tenant, DayOf(now));
      ledger == s.ledger[k := LedgerAt(s.ledger, k).(reserved := LedgerAt(s.ledger, k).reserved + cost)]
    requires
      var r := Grant(s.(ledger := ledger), j, cost, worker, token, duration, now);
      r.1.Claimed? && r.0 == s'
    ensures Inv(cfg, s')
  {
    var key := AttemptKey(j, s.jobs[j].attemptNo + 1);
    assert key in s.attempts ==> AttemptOk(s, key);
    assert JobFields(s.jobs[j]);
    GrantUnfolds(s, j, ledger, cost, worker, token, duration, now, s');
    GrantRows(cfg, s, j, s');
    GrantEvents(cfg, s, j, s');
    GrantBalances(s, key, s'.attempts[key], s');
  }

  lemma GrantEvents(cfg: Config, s: State, j: JobId, s': State)
    requires EventsOk(cfg, s) && j in s.jobs && !Terminal(s.jobs[j].status)
    requires j in s'.jobs && s'.jobs == s.jobs[j := s'.jobs[j]] && s'.outbox == s.outbox
    ensures EventsOk(cfg, s')
  {
    assert j in s.outbox ==> EventOk(s, j);
    EventsFrame(cfg, s, s', j);
  }

  lemma GrantRows(cfg: Config, s: State, j: JobId, s': State)
    requires Detached(cfg, s, j) && RowsGranted(s, j, s')
    ensures JobRowsOk(s') && RunningJobsHaveAttempts(s', {}) && AttemptsOk(s') && RetiredOk(s')
  {
    var key := AttemptKey(j, s'.jobs[j].attemptNo);
    forall k | k in s'.attempts ensures AttemptOk(s', k) {
      if k != key { assert AttemptOk(s, k); }
    }
    forall i | i in s'.jobs && s'.jobs[i].status == Running ensures HasRunningAttempt(s', i) {
      if i != j { assert HasRunningAttempt(s, i); }
    }
  }
}
