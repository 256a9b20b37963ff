/**
 * Bundle publication: upload to a random staging key, commit a PENDING row, promote the staged object to its content
 * address under a lease, READY. Losing uploaders, finished and abandoned promotions and the staging collector discard
 * staged objects; every discard and every copy may land later than its process believes.
 */
module Bundles {
  import opened Options
  import opened Events

  type StagingId = nat
  type Digest = nat

  const MAX_OPERATION: nat := 40 * MINUTE
  const MIN_GARBAGE_AGE: nat := HOUR

  datatype BundleConfig = BundleConfig(
    operationTimeout: nat, garbageAge: nat, idempotencyTtl: nat, maxPublishAttempts: nat)

  predicate ValidBundleConfig(cfg: BundleConfig)
  {
    && 0 < cfg.operationTimeout <= MAX_OPERATION
    && MIN_GARBAGE_AGE <= cfg.garbageAge
    && 0 < cfg.idempotencyTtl
    && 0 < cfg.maxPublishAttempts
  }

  /** A bundle is identified by its tenant and its content; its final object key is derived from both. */
  datatype BundleKey = BundleKey(tenant: TenantId, digest: Digest)

  datatype PublicationStatus = Pending | Publishing | Ready | Abandoned

  datatype BundleRow = BundleRow(
    size: nat,
    staging: Option<StagingId>,
    status: PublicationStatus,
    token: Option<nat>,
    leaseUntil: Option<Time>,
    attemptCount: nat,
    nextAttemptAt: Time,
    createdAt: Time,
    readyAt: Option<Time>,
    abandonedAt: Option<Time>)

  datatype Object = Object(digest: Digest, size: nat)
  datatype StagedObject = StagedObject(content: Object, modifiedAt: Time)

  datatype IdemKey = IdemKey(tenant: TenantId, digest: nat)
  datatype IdemRecord = IdemRecord(request: Digest, expiresAt: Time)

  datatype UploadPhase = Begun | Staging | Staged | Published | Unused | Gone

  datatype Upload = Upload(key: BundleKey, idem: nat, size: nat, startedAt: Time, phase: UploadPhase, landed: bool)

  datatype PromotionPhase = Claimed | Copying | Promoted | Broken | Completed | GivenUp | Over

  datatype Promotion = Promotion(
    key: BundleKey, staging: StagingId, size: nat, attemptCount: nat, phase: PromotionPhase, copyIssued: bool)

  datatype CollectionPhase = Listed | CheckedOnce | CheckedTwice | Discarding | Discarded | Skipped

  datatype Collection = Collection(staging: StagingId, phase: CollectionPhase)

  datatype World = World(
    now: Time,
    rows: map<BundleKey, BundleRow>,
    records: map<IdemKey, IdemRecord>,
    staged: map<StagingId, StagedObject>,
    finals: map<BundleKey, Object>,
    uploads: map<StagingId, Upload>,
    promotions: map<nat, Promotion>,
    collections: map<nat, Collection>,
    // Staging keys for which some discard was issued.
    doomed: set<StagingId>,
    nextUpload: StagingId,
    nextToken: nat)

  /** A row from before publication had states: PENDING, and never staged. */
  predicate Migrated(row: BundleRow)
  {
    && row.staging == None && row.status == Pending
    && row.token == None && row.leaseUntil == None && row.readyAt == None && row.abandonedAt == None
  }

  /** Any database the migration leaves: migrated rows, some with their final object, and nothing in progress. */
  predicate Initial(w: World)
  {
    && (forall key :: key in w.rows ==> Migrated(w.rows[key]))
    && (forall key :: key in w.finals ==> key in w.rows && w.finals[key] == Object(key.digest, w.rows[key].size))
    && w.staged == map[] && w.uploads == map[] && w.promotions == map[] && w.collections == map[] && w.doomed == {}
  }

  // -------------------------------------------------------------- transactions

  predicate NeedsFreshStaging(row: BundleRow)
  {
    row.status == Abandoned || row.staging == None
  }

  function Revived(row: BundleRow, staging: StagingId, now: Time): BundleRow
  {
    row.(staging := Some(staging), status := Pending, readyAt := None, token := None, leaseUntil := None,
         attemptCount := 0, nextAttemptAt := now, abandonedAt := None)
  }

  datatype CommitOutcome = Conflict | Rejected | Replay(status: PublicationStatus, staging: Option<StagingId>)

  /** The upload transaction; `admissible` stands for an active tenant whose policy allows the manifest. */
  function CommitTx(cfg: BundleConfig, w: World, id: StagingId, admissible: bool): (World, CommitOutcome)
    requires id in w.uploads
  {
    var up := w.uploads[id];
    var k := IdemKey(up.key.tenant, up.idem);
    if !admissible then (w, Rejected)
    else
      var live :=
        && k in w.records && w.now < w.records[k].expiresAt
        && BundleKey(up.key.tenant, w.records[k].request) in w.rows;
      if live && w.records[k].request != up.key.digest then (w, Conflict)
      else
        var record := if live then w.records[k] else IdemRecord(up.key.digest, w.now + cfg.idempotencyTtl);
        var first := BundleRow(up.size, Some(id), Pending, None, None, 0, w.now, w.now, None, None);
        var row :=
          if up.key !in w.rows then first
          else if NeedsFreshStaging(w.rows[up.key]) then Revived(w.rows[up.key], id, w.now)
          else w.rows[up.key];
        (w.(rows := w.rows[up.key := row], records := w.records[k := record]), Replay(row.status, row.staging))
  }

  predicate Claimable(row: BundleRow, now: Time)
  {
    && row.staging.Some? && row.abandonedAt == None
    && (|| (row.status == Pending && row.nextAttemptAt <= now)
        || (row.status == Publishing && row.leaseUntil.Some? && row.leaseUntil.value <= now))
  }

  function ClaimTx(w: World, key: BundleKey, lease: nat): World
  {
    if key !in w.rows || !Claimable(w.rows[key], w.now) || lease == 0 then w
    else
      var row := w.rows[key];
      var n := w.nextToken;
      w.(rows := w.rows[key := row.(status := Publishing, token := Some(n), leaseUntil := Some(w.now + lease),
                                    attemptCount := row.attemptCount + 1)],
         promotions := w.promotions[n :=
           Promotion(key, row.staging.value, row.size, row.attemptCount + 1, Claimed, false)],
         nextToken := n + 1)
  }

  /** The fence of a promotion: PUBLISHING under its own token. */
  predicate Holds(w: World, key: BundleKey, n: nat)
  {
    key in w.rows && w.rows[key].status == Publishing && w.rows[key].token == Some(n)
  }

  function CompleteTx(rows: map<BundleKey, BundleRow>, key: BundleKey, now: Time): map<BundleKey, BundleRow>
    requires key in rows
  {
    rows[key := rows[key].(status := Ready, readyAt := Some(now), token := None, leaseUntil := None)]
  }

  function FailTx(
    rows: map<BundleKey, BundleRow>, key: BundleKey, nextAttempt: Time, abandoned: bool): map<BundleKey, BundleRow>
    requires key in rows
  {
    rows[key := rows[key].(status := if abandoned then Abandoned else Pending, token := None, leaseUntil := None,
                           nextAttemptAt := nextAttempt, abandonedAt := if abandoned then Some(nextAttempt) else None)]
  }

  /** The collector's question. */
  predicate Referenced(w: World, id: StagingId)
  {
    exists key ::
      && key in w.rows && w.rows[key].staging == Some(id)
      && (w.rows[key].status == Pending || w.rows[key].status == Publishing)
  }

  predicate Unrecoverable(row: BundleRow, before: Time, now: Time)
  {
    && row.staging == None && row.readyAt == None && row.createdAt < before
    && (row.status == Pending || row.status == Publishing)
    && (row.leaseUntil == None || row.leaseUntil.value < now)
  }

  // --------------------------------------------------------------------- steps

  datatype UploadMove =
    | Begin(key: BundleKey, idem: nat, size: nat)
    | StartStage(id: StagingId)
    | StageLands(id: StagingId)
    | StageReturns(id: StagingId)
    | Commit(id: StagingId, admissible: bool)
    | DiscardOwn(id: StagingId)
    | Finish(id: StagingId)

  datatype PromotionMove =
    | Claim(key: BundleKey, lease: nat)
    | FindFinal(n: nat)
    | Copy(n: nat)
    | CopyLands(n: nat)
    | Verify(n: nat)
    | Break(n: nat)
    | Complete(n: nat)
    | Fail(n: nat, nextAttempt: Time)
    | DiscardPromoted(n: nat)

  datatype CollectionMove =
    | List(id: StagingId)
    | Check(n: nat)
    | Discard(n: nat)
    | DiscardReturns(n: nat)

  datatype Step =
    | Tick(d: nat)
    | Uploading(upload: UploadMove)
    | Promoting(promotion: PromotionMove)
    | Collecting(collection: CollectionMove)
    | DiscardLands(id: StagingId)
    | ExpireRecords(keys: set<IdemKey>)
    | SweepUnrecoverable(bundles: set<BundleKey>, before: Time)

  predicate UploadIn(w: World, id: StagingId, phase: UploadPhase)
  {
    id in w.uploads && w.uploads[id].phase == phase
  }

  predicate PromotionIn(w: World, n: nat, phase: PromotionPhase)
  {
    n in w.promotions && w.promotions[n].phase == phase
  }

  function MoveUpload(w: World, id: StagingId, phase: UploadPhase): World
    requires id in w.uploads
  {
    w.(uploads := w.uploads[id := w.uploads[id].(phase := phase)])
  }

  function MovePromotion(w: World, n: nat, phase: PromotionPhase): World
    requires n in w.promotions
  {
    w.(promotions := w.promotions[n := w.promotions[n].(phase := phase)])
  }

  function UploadStep(cfg: BundleConfig, w: World, step: UploadMove): World
  {
    match step
    case Begin(key, idem, size) =>
      w.(
        uploads := w.uploads[w.nextUpload := Upload(key, idem, size, w.now, Begun, false)],
        nextUpload := w.nextUpload + 1)
    case StartStage(id) => if UploadIn(w, id, Begun) then MoveUpload(w, id, Staging) else w
    case StageLands(id) =>
      // A write that was started lands once, whether or not its uploader is still there.
      if id in w.uploads && w.uploads[id].phase != Begun && !w.uploads[id].landed && id !in w.staged then
        w.(staged := w.staged[id := StagedObject(Object(w.uploads[id].key.digest, w.uploads[id].size), w.now)],
           uploads := w.uploads[id := w.uploads[id].(landed := true)])
      else w
    case StageReturns(id) =>
      if UploadIn(w, id, Staging) && w.uploads[id].landed && id in w.staged then MoveUpload(w, id, Staged) else w
    case Commit(id, admissible) =>
      if !UploadIn(w, id, Staged) || w.uploads[id].startedAt + cfg.operationTimeout <= w.now then w
      else
        var r := CommitTx(cfg, w, id, admissible);
        MoveUpload(r.0, id, if r.1.Replay? && r.1.staging == Some(id) then Published else Unused)
    case DiscardOwn(id) => if UploadIn(w, id, Unused) then w.(doomed := w.doomed + {id}) else w
    case Finish(id) => if id in w.uploads && w.uploads[id].phase != Published then MoveUpload(w, id, Gone) else w
  }

  function PromotionStep(cfg: BundleConfig, w: World, step: PromotionMove): World
  {
    match step
    case Claim(key, lease) => ClaimTx(w, key, lease)
    case FindFinal(n) =>
      if PromotionIn(w, n, Claimed) && w.promotions[n].key in w.finals then
        var p := w.promotions[n];
        MovePromotion(w, n, if w.finals[p.key] == Object(p.key.digest, p.size) then Promoted else Broken)
      else w
    case Copy(n) =>
      if PromotionIn(w, n, Claimed) && w.promotions[n].staging in w.staged
         && w.staged[w.promotions[n].staging].content == Object(w.promotions[n].key.digest, w.promotions[n].size)
      then w.(promotions := w.promotions[n := w.promotions[n].(phase := Copying, copyIssued := true)])
      else w
    case CopyLands(n) =>
      if n in w.promotions && w.promotions[n].copyIssued then
        w.(finals := w.finals[w.promotions[n].key := Object(w.promotions[n].key.digest, w.promotions[n].size)])
      else w
    case Verify(n) =>
      if PromotionIn(w, n, Copying) && w.promotions[n].key in w.finals then
        var p := w.promotions[n];
        MovePromotion(w, n, if w.finals[p.key] == Object(p.key.digest, p.size) then Promoted else Broken)
      else w
    case Break(n) =>
      if PromotionIn(w, n, Claimed) || PromotionIn(w, n, Copying) then MovePromotion(w, n, Broken) else w
    case Complete(n) =>
      if !PromotionIn(w, n, Promoted) then w
      else if !Holds(w, w.promotions[n].key, n) then MovePromotion(w, n, Over)
      else MovePromotion(w, n, Completed).(rows := CompleteTx(w.rows, w.promotions[n].key, w.now))
    case Fail(n, nextAttempt) =>
      if !PromotionIn(w, n, Broken) then w
      else if !Holds(w, w.promotions[n].key, n) then MovePromotion(w, n, Over)
      else
        var abandoned := w.promotions[n].attemptCount >= cfg.maxPublishAttempts;
        MovePromotion(w, n, if abandoned then GivenUp else Over)
          .(rows := FailTx(w.rows, w.promotions[n].key, nextAttempt, abandoned))
    case DiscardPromoted(n) =>
      if PromotionIn(w, n, Completed) || PromotionIn(w, n, GivenUp)
      then w.(doomed := w.doomed + {w.promotions[n].staging})
      else w
  }

  function CollectionStep(cfg: BundleConfig, w: World, step: CollectionMove): World
  {
    match step
    case List(id) =>
      if id in w.staged && w.staged[id].modifiedAt + cfg.garbageAge < w.now then
        w.(collections := w.collections[w.nextToken := Collection(id, Listed)], nextToken := w.nextToken + 1)
      else w
    case Check(n) =>
      if n in w.collections && (w.collections[n].phase == Listed || w.collections[n].phase == CheckedOnce) then
        var next :=
          if Referenced(w, w.collections[n].staging) then Skipped
          else if w.collections[n].phase == Listed then CheckedOnce
          else CheckedTwice;
        w.(collections := w.collections[n := w.collections[n].(phase := next)])
      else w
    case Discard(n) =>
      if n in w.collections && w.collections[n].phase == CheckedTwice then
        w.(
          collections := w.collections[n := w.collections[n].(phase := Discarding)],
          doomed := w.doomed + {w.collections[n].staging})
      else w
    case DiscardReturns(n) =>
      if n in w.collections && w.collections[n].phase == Discarding then
        w.(
          collections := w.collections[n := w.collections[n].(phase := Discarded)],
          staged := w.staged - {w.collections[n].staging})
      else w
  }

  function LiveRecords(w: World, keys: set<IdemKey>): map<IdemKey, IdemRecord>
  {
    map k | k in w.records && !(k in keys && w.records[k].expiresAt <= w.now) :: w.records[k]
  }

  function SweptRows(w: World, bundles: set<BundleKey>, before: Time): map<BundleKey, BundleRow>
  {
    map key | key in w.rows ::
      if key in bundles && Unrecoverable(w.rows[key], before, w.now)
      then w.rows[key].(status := Abandoned, abandonedAt := Some(w.now), token := None, leaseUntil := None)
      else w.rows[key]
  }

  function Apply(cfg: BundleConfig, w: World, step: Step): World
  {
    match step
    case Tick(d) => w.(now := w.now + d)
    case DiscardLands(id) => if id in w.doomed then w.(staged := w.staged - {id}) else w
    case ExpireRecords(keys) => w.(records := LiveRecords(w, keys))
    case SweepUnrecoverable(bundles, before) => w.(rows := SweptRows(w, bundles, before))
    case Uploading(move) => UploadStep(cfg, w, move)
    case Promoting(move) => PromotionStep(cfg, w, move)
    case Collecting(move) => CollectionStep(cfg, w, move)
  }

  function Run(cfg: BundleConfig, w: World, steps: seq<Step>): World
    decreases |steps|
  {
    if steps == [] then w else Run(cfg, Apply(cfg, w, steps[0]), steps[1..])
  }
}
