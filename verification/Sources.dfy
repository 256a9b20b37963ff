/**
 * Submission, reservation sweeper, source retention and idempotency: database rows on one side, encrypted source
 * objects on the other, and processes that may stop between any two steps.
 *
 * Object writes and deletes are split into issuing and landing. A write that was started can land any time before its
 * deadline, a delete that was issued can land any time later, whether or not its process is still there. A commit with
 * an unknown outcome is one of two steps: `CommitTx`, or `Finish` without it. Identifiers and tokens are fresh.
 */
module Sources {
  import opened Options
  import opened Events
  import opened JobModel

  const ADMISSION_LEASE: nat := 25 * MINUTE
  const SWEEP_LEASE: nat := 15 * MINUTE
  const MAX_SUBMIT_TIMEOUT: nat := 30 * MINUTE
  const COMPENSATION_ALLOWANCE: nat := MINUTE
  const DEFAULT_MINIMUM_AGE: nat := HOUR

  datatype SourceConfig = SourceConfig(
    jobs: Config,
    submitTimeout: nat,
    objectTimeout: nat,
    idempotencyTtl: nat,
    minimumAge: nat,
    retention: nat)

  /** The bounds the repository and the two sweepers check. */
  predicate ValidSourceConfig(cfg: SourceConfig)
  {
    && ValidConfig(cfg.jobs)
    && 0 < cfg.submitTimeout <= MAX_SUBMIT_TIMEOUT
    && SECOND <= cfg.objectTimeout <= 20 * MINUTE
    && 0 < cfg.idempotencyTtl <= 7 * DAY
    && 0 < cfg.minimumAge <= 7 * DAY
    && 0 < cfg.retention <= 365 * DAY
  }

  type Digest = nat

  /** Object keys: a random one per submission, and one derived from tenant and idempotency key. */
  datatype ObjectKey = Source(id: SourceId) | Coordination(tenant: TenantId, digest: Digest)

  /** Whose random token a reservation row holds. */
  datatype Owner = Submitter(id: SourceId) | Sweeper(n: nat)

  datatype ReservationRow = ReservationRow(owner: Owner, leaseUntil: Time, createdAt: Time)

  datatype SourceRow = SourceRow(
    tenant: TenantId,
    markedAt: Option<Time>,
    deleteToken: Option<nat>,
    deleteLeaseUntil: Time,
    deleteNextAttemptAt: Time,
    deleteAttemptCount: nat)

  datatype IdemKey = IdemKey(tenant: TenantId, digest: Digest)
  datatype IdemRecord = IdemRecord(hash: RequestHash, job: JobId, expiresAt: Time)

  datatype Put = NotStarted | InFlight(deadline: Time) | Landed

  datatype Phase =
    | Begun | Coordinated | Admitted | Reserved | Putting | Stored
    | Committed | Aborting | Compensating | Compensated | Gone

  datatype Submission = Submission(
    tenant: TenantId,
    digest: Digest,
    hash: RequestHash,
    limits: ExecutionLimits,
    callback: Option<CallbackId>,
    sourceBytes: int,
    startedAt: Time,
    // When the request context ends: the submit timeout, or earlier if the caller says so.
    deadline: Time,
    phase: Phase,
    put: Put)

  datatype SweepPhase = SweepClaimed | SweepDeleting | SweepDeleted | SweepReferenced
  datatype Sweep = Sweep(key: ObjectKey, phase: SweepPhase)

  datatype RetentionPhase = RetentionClaimed | RetentionDeleting | RetentionDeleted
  datatype Retention = Retention(job: JobId, source: SourceId, tenant: TenantId, phase: RetentionPhase)

  datatype World = World(
    now: Time,
    core: State,
    reservations: map<ObjectKey, ReservationRow>,
    sources: map<SourceId, SourceRow>,
    idempotency: map<IdemKey, IdemRecord>,
    store: set<SourceId>,
    submissions: map<SourceId, Submission>,
    sweeps: map<nat, Sweep>,
    retentions: map<nat, Retention>,
    // Objects for which some delete was issued: it may land at any time.
    doomed: set<SourceId>,
    nextSource: SourceId,
    nextToken: nat)

  function Start(): World
  {
    World(0, Empty(), map[], map[], map[], {}, map[], map[], map[], {}, 0, 0)
  }

  // ------------------------------------------------------------- reservations

  /** Insert, or take over a row whose lease has run out. */
  function TryAcquire(rows: map<ObjectKey, ReservationRow>, key: ObjectKey, owner: Owner, lease: nat,
                      now: Time): (map<ObjectKey, ReservationRow>, bool)
  {
    if key !in rows || rows[key].leaseUntil <= now then (rows[key := ReservationRow(owner, now + lease, now)], true)
    else (rows, false)
  }

  predicate Owns(rows: map<ObjectKey, ReservationRow>, key: ObjectKey, owner: Owner)
  {
    key in rows && rows[key].owner == owner
  }

  /** The row lock of the submission transaction: own token, unexpired lease. */
  predicate Holds(rows: map<ObjectKey, ReservationRow>, key: ObjectKey, owner: Owner, now: Time)
  {
    Owns(rows, key, owner) && now < rows[key].leaseUntil
  }

  function Drop(rows: map<ObjectKey, ReservationRow>, key: ObjectKey, owner: Owner): map<ObjectKey, ReservationRow>
  {
    if Owns(rows, key, owner) then rows - {key} else rows
  }

  // --------------------------------------------------------------- submission

  datatype ReplayOutcome = Fresh | Replayed(job: JobId) | Conflict

  /** The replay lookup: only unexpired records count. */
  function FindReplay(w: World, tenant: TenantId, digest: Digest, hash: RequestHash): ReplayOutcome
  {
    var k := IdemKey(tenant, digest);
    if k !in w.idempotency || w.idempotency[k].expiresAt <= w.now then Fresh
    else if w.idempotency[k].hash != hash then Conflict
    else Replayed(w.idempotency[k].job)
  }

  datatype SubmitOutcome =
    | Accepted(job: JobId) | ReplayedJob(job: JobId)
    | SubmitConflict | SubmitInvalid | SubmitQueueFull | SubmitUnavailable

  /** The submission transaction; every outcome but `Accepted` rolls back. */
  function SubmitTx(
    cfg: SourceConfig, w: World, id: SourceId, bundleReady: bool, callbackUsable: bool): (World, SubmitOutcome)
    requires id in w.submissions
  {
    var sub := w.submissions[id];
    var coordination := Coordination(sub.tenant, sub.digest);
    if || !Holds(w.reservations, coordination, Submitter(id), w.now)
       || !Holds(w.reservations, Source(id), Submitter(id), w.now)
    then (w, SubmitUnavailable)
    else if || sub.tenant !in w.core.tenants || !w.core.tenants[sub.tenant].active
            || !ValidPolicy(w.core.tenants[sub.tenant].policy)
    then (w, SubmitUnavailable)
    else
      match FindReplay(w, sub.tenant, sub.digest, sub.hash)
      case Conflict => (w, SubmitConflict)
      case Replayed(job) => (w, if job in w.core.jobs then ReplayedJob(job) else SubmitUnavailable)
      case Fresh =>
        if sub.sourceBytes > w.core.tenants[sub.tenant].policy.maxSourceBytes then (w, SubmitInvalid)
        else
          var r := EnqueueTx(w.core, sub.tenant, sub.limits, sub.callback, id, sub.hash, w.now);
          if !r.1.Enqueued? then (w, SubmitQueueFull)
          else if !bundleReady || !callbackUsable then (w, SubmitInvalid)
          else
            (w.(core := r.0,
                sources := w.sources[id := SourceRow(sub.tenant, None, None, 0, 0, 0)],
                idempotency := w.idempotency[IdemKey(sub.tenant, sub.digest) :=
                  IdemRecord(sub.hash, r.1.job, w.now + cfg.idempotencyTtl)],
                reservations := w.reservations - {coordination, Source(id)}),
             Accepted(r.1.job))
  }

  function PutDeadline(cfg: SourceConfig, sub: Submission, now: Time): Time
  {
    var byObject, bySubmit := now + cfg.objectTimeout, sub.deadline;
    if byObject < bySubmit then byObject else bySubmit
  }

  // ---------------------------------------------------------------- retention

  predicate Blocked(w: World, j: JobId, source: SourceId, tenant: TenantId)
  {
    || j in w.core.outbox
    || (exists k ::
          k in w.idempotency && k.tenant == tenant && w.idempotency[k].job == j && w.now < w.idempotency[k].expiresAt)
    || (exists i :: i in w.core.jobs && i != j && w.core.jobs[i].source == source)
  }

  /** The job a retention transaction locks: terminal and bound to this source. */
  predicate RetainedJob(w: World, j: JobId, source: SourceId, tenant: TenantId)
  {
    && tenant in w.core.tenants && j in w.core.jobs && w.core.jobs[j].tenant == tenant
    && Terminal(w.core.jobs[j].status) && w.core.jobs[j].source == source
  }

  predicate Retainable(cfg: SourceConfig, w: World, j: JobId)
  {
    && j in w.core.jobs
    && var job := w.core.jobs[j];
    && RetainedJob(w, j, job.source, job.tenant)
    && job.completedAt.Some? && job.completedAt.value + cfg.retention <= w.now
    && job.source in w.sources && w.sources[job.source].tenant == job.tenant
    && var row := w.sources[job.source];
    && (row.markedAt == None || (row.deleteNextAttemptAt <= w.now && row.deleteLeaseUntil <= w.now))
    && !Blocked(w, j, job.source, job.tenant)
  }

  /** The fence of a retention worker: its token and an unexpired lease. */
  predicate RetentionFence(w: World, n: nat)
    requires n in w.retentions
  {
    var r := w.retentions[n];
    && RetainedJob(w, r.job, r.source, r.tenant)
    && r.source in w.sources && w.sources[r.source].tenant == r.tenant
    && w.sources[r.source].deleteToken == Some(n) && w.now < w.sources[r.source].deleteLeaseUntil
  }

  // -------------------------------------------------------------------- steps

  datatype SubmissionMove =
    | Begin(
      tenant: TenantId, digest: Digest, hash: RequestHash, limits: ExecutionLimits, callback: Option<CallbackId>,
      sourceBytes: int, patience: nat)
    | Coordinate(id: SourceId, asked: Time)
    | Recheck(id: SourceId)
    | Reserve(id: SourceId)
    | StartPut(id: SourceId)
    | PutLands(id: SourceId)
    | PutReturns(id: SourceId)
    | PutExists(id: SourceId)
    | CommitTx(id: SourceId, bundleReady: bool, callbackUsable: bool)
    | Rollback(id: SourceId)
    | Compensate(id: SourceId)
    | CompensationDeletes(id: SourceId)
    | Release(id: SourceId)
    | Finish(id: SourceId)

  datatype SweepMove =
    | SweepClaim(key: ObjectKey)
    | SweepCheck(n: nat)
    | SweepDeletes(n: nat)
    | SweepFinalize(n: nat)

  datatype RetentionMove =
    | RetentionClaim(job: JobId, lease: nat)
    | RetentionDelete(n: nat)
    | RetentionDeletes(n: nat)
    | RetentionFailed(n: nat, delay: nat)
    | RetentionFinalize(n: nat)
    | ExpireIdempotency(keys: set<IdemKey>)

  datatype WorldStep =
    | Tick(d: nat)
    | CoreStep(step: Step)
    | Submitting(submission: SubmissionMove)
    | Sweeping(sweep: SweepMove)
    | Retaining(retention: RetentionMove)
    | DeleteLands(id: SourceId)

  predicate InPhase(w: World, id: SourceId, phase: Phase)
  {
    id in w.submissions && w.submissions[id].phase == phase
  }

  function Move(w: World, id: SourceId, phase: Phase): World
    requires id in w.submissions
  {
    w.(submissions := w.submissions[id := w.submissions[id].(phase := phase)])
  }

  /** The request context is still alive. */
  predicate Alive(w: World, id: SourceId)
    requires id in w.submissions
  {
    w.now < w.submissions[id].deadline
  }

  /** The coordination lease asked for at `asked`: the rest of the request, and an allowance for compensation. */
  function CoordinationLease(sub: Submission, asked: Time): nat
  {
    (if sub.deadline < asked then 0 else sub.deadline - asked) + COMPENSATION_ALLOWANCE
  }

  /** Gives both reservations of a submission back, where it still owns them. */
  function DropBoth(rows: map<ObjectKey, ReservationRow>, sub: Submission, id: SourceId): map<ObjectKey, ReservationRow>
  {
    Drop(Drop(rows, Coordination(sub.tenant, sub.digest), Submitter(id)), Source(id), Submitter(id))
  }

  function SubmissionStep(cfg: SourceConfig, w: World, step: SubmissionMove): World
  {
    match step
    case Begin(tenant, digest, hash, limits, callback, sourceBytes, patience) =>
      var deadline := w.now + if patience < cfg.submitTimeout then patience else cfg.submitTimeout;
      var sub := Submission(
        tenant, digest, hash, limits, callback, sourceBytes, w.now, deadline, Begun, NotStarted);
      w.(submissions := w.submissions[w.nextSource := sub], nextSource := w.nextSource + 1)
    case Coordinate(id, asked) =>
      if !InPhase(w, id, Begun) || !Alive(w, id) || asked > w.now then w
      else
        var sub := w.submissions[id];
        var r := TryAcquire(
          w.reservations, Coordination(sub.tenant, sub.digest), Submitter(id), CoordinationLease(sub, asked), w.now);
        if r.1 then Move(w.(reservations := r.0), id, Coordinated) else w
    case Recheck(id) =>
      if !InPhase(w, id, Coordinated) || !Alive(w, id) then w
      else
        var sub := w.submissions[id];
        if FindReplay(w, sub.tenant, sub.digest, sub.hash) == Fresh then Move(w, id, Admitted) else w
    case Reserve(id) =>
      if !InPhase(w, id, Admitted) || !Alive(w, id) then w
      else
        var r := TryAcquire(w.reservations, Source(id), Submitter(id), ADMISSION_LEASE, w.now);
        if r.1 then Move(w.(reservations := r.0), id, Reserved) else w
    case StartPut(id) =>
      if !InPhase(w, id, Reserved) then w
      else
        var sub := w.submissions[id];
        var put := InFlight(PutDeadline(cfg, sub, w.now));
        w.(submissions := w.submissions[id := sub.(phase := Putting, put := put)])
    case PutLands(id) =>
      if id !in w.submissions || !w.submissions[id].put.InFlight? || w.now >= w.submissions[id].put.deadline then w
      else w.(store := w.store + {id}, submissions := w.submissions[id := w.submissions[id].(put := Landed)])
    case PutReturns(id) =>
      if !InPhase(w, id, Putting) || w.submissions[id].put != Landed then w else Move(w, id, Stored)
    case PutExists(id) =>
      // The object store reports that the key exists, and a replay is found: both reservations go, without a delete.
      if !InPhase(w, id, Putting) || !Alive(w, id) then w
      else
        var sub := w.submissions[id];
        if FindReplay(w, sub.tenant, sub.digest, sub.hash).Replayed?
        then Move(w, id, Gone).(reservations := DropBoth(w.reservations, sub, id)) else w
    case CommitTx(id, bundleReady, callbackUsable) =>
      if !InPhase(w, id, Stored) then w
      else
        var r := SubmitTx(cfg, w, id, bundleReady, callbackUsable);
        Move(r.0, id, if r.1.Accepted? then Committed else Aborting)
    case Rollback(id) =>
      if !InPhase(w, id, Stored) then w else Move(w, id, Aborting)
    case Compensate(id) =>
      if !InPhase(w, id, Aborting) then w else Move(w, id, Compensating).(doomed := w.doomed + {id})
    case CompensationDeletes(id) =>
      if !InPhase(w, id, Compensating) then w else Move(w, id, Compensated).(store := w.store - {id})
    case Release(id) =>
      // A reservation that was acquired without the submission learning of it is left to the sweeper.
      if InPhase(w, id, Coordinated) || InPhase(w, id, Admitted) || InPhase(w, id, Reserved) then
        var sub := w.submissions[id];
        Move(w, id, Gone)
          .(reservations := Drop(w.reservations, Coordination(sub.tenant, sub.digest), Submitter(id)))
      else if InPhase(w, id, Compensated) then
        Move(w, id, Gone).(reservations := DropBoth(w.reservations, w.submissions[id], id))
      else w
    case Finish(id) =>
      if id !in w.submissions || w.submissions[id].phase == Committed then w else Move(w, id, Gone)
  }

  function SweepStep(cfg: SourceConfig, w: World, step: SweepMove): World
  {
    match step
    case SweepClaim(key) =>
      if || key !in w.reservations || w.now < w.reservations[key].leaseUntil
         || w.now < w.reservations[key].createdAt + cfg.minimumAge
      then w
      else
        var row := w.reservations[key].(owner := Sweeper(w.nextToken), leaseUntil := w.now + SWEEP_LEASE);
        w.(reservations := w.reservations[key := row],
           sweeps := w.sweeps[w.nextToken := Sweep(key, SweepClaimed)],
           nextToken := w.nextToken + 1)
    case SweepCheck(n) =>
      if n !in w.sweeps || w.sweeps[n].phase != SweepClaimed then w
      else
        var key := w.sweeps[n].key;
        if key.Source? && key.id in w.sources then w.(sweeps := w.sweeps[n := Sweep(key, SweepReferenced)])
        else w.(
          sweeps := w.sweeps[n := Sweep(key, SweepDeleting)],
          doomed := if key.Source? then w.doomed + {key.id} else w.doomed)
    case SweepDeletes(n) =>
      if n !in w.sweeps || w.sweeps[n].phase != SweepDeleting then w
      else
        var key := w.sweeps[n].key;
        w.(
          sweeps := w.sweeps[n := Sweep(key, SweepDeleted)],
          store := if key.Source? then w.store - {key.id} else w.store)
    case SweepFinalize(n) =>
      if n !in w.sweeps || !(w.sweeps[n].phase == SweepDeleted || w.sweeps[n].phase == SweepReferenced) then w
      else w.(reservations := Drop(w.reservations, w.sweeps[n].key, Sweeper(n)))
  }

  function RetentionStep(cfg: SourceConfig, w: World, step: RetentionMove): World
  {
    match step
    case RetentionClaim(j, lease) =>
      if !Retainable(cfg, w, j) || lease == 0 || lease > MAX_LEASE then w
      else
        var job := w.core.jobs[j];
        var row := w.sources[job.source];
        var marked := row.(
          markedAt := if row.markedAt.Some? then row.markedAt else Some(w.now),
          deleteToken := Some(w.nextToken), deleteLeaseUntil := w.now + lease,
          deleteNextAttemptAt := w.now, deleteAttemptCount := row.deleteAttemptCount + 1);
        w.(sources := w.sources[job.source := marked],
           retentions := w.retentions[w.nextToken := Retention(j, job.source, job.tenant, RetentionClaimed)],
           nextToken := w.nextToken + 1)
    case RetentionDelete(n) =>
      if n !in w.retentions || w.retentions[n].phase != RetentionClaimed then w
      else w.(
        retentions := w.retentions[n := w.retentions[n].(phase := RetentionDeleting)],
        doomed := w.doomed + {w.retentions[n].source})
    case RetentionDeletes(n) =>
      if n !in w.retentions || w.retentions[n].phase != RetentionDeleting then w
      else w.(
        retentions := w.retentions[n := w.retentions[n].(phase := RetentionDeleted)],
        store := w.store - {w.retentions[n].source})
    case RetentionFailed(n, delay) =>
      if n !in w.retentions || delay == 0 || delay > HOUR || !RetentionFence(w, n) then w
      else
        var k := w.retentions[n].source;
        w.(sources := w.sources[k := w.sources[k].(deleteLeaseUntil := w.now, deleteNextAttemptAt := w.now + delay)])
    case RetentionFinalize(n) =>
      if n !in w.retentions || w.retentions[n].phase != RetentionDeleted || !RetentionFence(w, n) then w
      else
        var r := w.retentions[n];
        if w.sources[r.source].markedAt == None || Blocked(w, r.job, r.source, r.tenant) then w
        else w.(core := RetireTx(w.core, r.job), sources := w.sources - {r.source})
    case ExpireIdempotency(keys) =>
      w.(idempotency :=
           map k | k in w.idempotency && !(k in keys && w.idempotency[k].expiresAt <= w.now) :: w.idempotency[k])
  }

  function Apply(cfg: SourceConfig, w: World, step: WorldStep): World
  {
    match step
    case Tick(d) => w.(now := w.now + d)
    case CoreStep(inner) =>
      // Jobs are only created by the submission transaction and only deleted by retention.
      if inner.EnqueueStep? || inner.RetireStep? then w else w.(core := JobModel.Apply(cfg.jobs, w.core, inner))
    case DeleteLands(id) => if id in w.doomed then w.(store := w.store - {id}) else w
    case Submitting(move) => SubmissionStep(cfg, w, move)
    case Sweeping(move) => SweepStep(cfg, w, move)
    case Retaining(move) => RetentionStep(cfg, w, move)
  }

  function Run(cfg: SourceConfig, w: World, steps: seq<WorldStep>): World
    decreases |steps|
  {
    if steps == [] then w else Run(cfg, Apply(cfg, w, steps[0]), steps[1..])
  }
}
