/** What the submission transaction and the replay lookup answer, read off the rows. */
module SourceAnswers {
  import opened Options
  import opened Events
  import opened JobModel
  import opened Sources
  import opened SourceInvariants

  /** The record under a key, while it lasts. */
  predicate HasRecord(w: World, k: IdemKey)
  {
    k in w.idempotency && w.now < w.idempotency[k].expiresAt
  }

  /** The lookup replays or refuses exactly while the record lasts. */
  lemma ReplayAnswer(w: World, k: IdemKey, hash: RequestHash)
    ensures FindReplay(w, k.tenant, k.digest, hash) ==
      if !HasRecord(w, k) then Fresh
      else if w.idempotency[k].hash == hash then Replayed(w.idempotency[k].job)
      else Conflict
  {
  }

  /** The row is the submitter's own and its lease has not run out. */
  predicate OwnLease(w: World, key: ObjectKey, id: SourceId)
  {
    key in w.reservations && w.reservations[key].owner == Submitter(id) && w.now < w.reservations[key].leaseUntil
  }

  predicate HoldsBoth(w: World, id: SourceId)
    requires id in w.submissions
  {
    OwnLease(w, Coordination(w.submissions[id].tenant, w.submissions[id].digest), id) && OwnLease(w, Source(id), id)
  }

  predicate TenantOpen(w: World, t: TenantId)
  {
    t in w.core.tenants && w.core.tenants[t].active && ValidPolicy(w.core.tenants[t].policy)
  }

  /** The tenant's queue has a place and its limit admits the source. */
  predicate Fits(w: World, id: SourceId)
    requires id in w.submissions && w.submissions[id].tenant in w.core.tenants
  {
    var sub := w.submissions[id];
    var p := w.core.tenants[sub.tenant].policy;
    && sub.sourceBytes <= p.maxSourceBytes
    && |set j | j in w.core.jobs && w.core.jobs[j].tenant == sub.tenant && w.core.jobs[j].status == Queued| <
       p.maxQueuedJobs
  }

  predicate Acceptable(w: World, id: SourceId, bundleReady: bool, callbackUsable: bool)
    requires id in w.submissions
  {
    var sub := w.submissions[id];
    && HoldsBoth(w, id) && TenantOpen(w, sub.tenant) && !HasRecord(w, IdemKey(sub.tenant, sub.digest))
    && Fits(w, id) && bundleReady && callbackUsable
  }

  /** The four writes of an accepted submission. */
  predicate Submitted(cfg: SourceConfig, w: World, w': World, id: SourceId)
    requires id in w.submissions
  {
    var sub := w.submissions[id];
    var j := w.core.nextJobId;
    w' == w.(
      core := w.core.(
        jobs := w.core.jobs[j := Job(sub.tenant, sub.limits, sub.callback, id, sub.hash, Queued, 0, None, w.now, None,
                                     None, None, w.now, None, None, None)],
        nextJobId := j + 1),
      sources := w.sources[id := SourceRow(sub.tenant, None, None, 0, 0, 0)],
      idempotency := w.idempotency[IdemKey(sub.tenant, sub.digest) :=
        IdemRecord(sub.hash, j, w.now + cfg.idempotencyTtl)],
      reservations := w.reservations - {Coordination(sub.tenant, sub.digest), Source(id)})
  }

  /**
   * A submission is accepted exactly if it holds both reservations, its tenant is open and has room, bundle and
   * callback can be used and no live record exists under its key. It then writes one QUEUED job that is due at once,
   * the source row and the record, and gives both reservations back; else nothing changes.
   */
  lemma SubmitAnswer(cfg: SourceConfig, w: World, id: SourceId, bundleReady: bool, callbackUsable: bool)
    requires id in w.submissions
    ensures
      var r := SubmitTx(cfg, w, id, bundleReady, callbackUsable);
      if Acceptable(w, id, bundleReady, callbackUsable)
      then r.1 == Accepted(w.core.nextJobId) && Submitted(cfg, w, r.0, id)
      else !r.1.Accepted? && r.0 == w
  {
    var sub := w.submissions[id];
    ReplayAnswer(w, IdemKey(sub.tenant, sub.digest), sub.hash);
    assert QueuedJobs(w.core.jobs, sub.tenant) ==
           set j | j in w.core.jobs && w.core.jobs[j].tenant == sub.tenant && w.core.jobs[j].status == Queued;
  }

  /** Under a live record the same request gets its job again and any other a conflict. */
  lemma RecordedAnswer(cfg: SourceConfig, w: World, id: SourceId, bundleReady: bool, callbackUsable: bool)
    requires WorldInv(cfg, w) && id in w.submissions && HoldsBoth(w, id) && TenantOpen(w, w.submissions[id].tenant)
    requires HasRecord(w, IdemKey(w.submissions[id].tenant, w.submissions[id].digest))
    ensures
      var sub := w.submissions[id];
      var record := w.idempotency[IdemKey(sub.tenant, sub.digest)];
      SubmitTx(cfg, w, id, bundleReady, callbackUsable) ==
      (w, if record.hash == sub.hash then ReplayedJob(record.job) else SubmitConflict)
  {
    var sub := w.submissions[id];
    assert RecordOk(w, IdemKey(sub.tenant, sub.digest));
  }

  /** The sweeper takes a reservation exactly if its lease has run out and it is old enough. */
  lemma SweepClaimAnswer(cfg: SourceConfig, w: World, key: ObjectKey)
    ensures
      var w' := Sources.Apply(cfg, w, Sweeping(SweepClaim(key)));
      if && key in w.reservations && w.reservations[key].leaseUntil <= w.now
         && w.reservations[key].createdAt + cfg.minimumAge <= w.now
      then
        w' == w.(
          reservations := w.reservations[key :=
            ReservationRow(Sweeper(w.nextToken), w.now + 15 * MINUTE, w.reservations[key].createdAt)],
          sweeps := w.sweeps[w.nextToken := Sweep(key, SweepClaimed)], nextToken := w.nextToken + 1)
      else w' == w
  {
  }
}
