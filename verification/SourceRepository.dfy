/** The transactions of submission, sweeping and retention as the program runs them, on tables updated in place. */
module SourceRepository {
  import opened Options
  import opened Events
  import opened JobModel
  import opened Sources

  /** The rows a sweep may take at `now`. */
  predicate Sweepable(row: ReservationRow, minimumAge: nat, now: Time)
  {
    row.leaseUntil <= now && row.createdAt + minimumAge <= now
  }

  /** They are the rows that the concurrent sweeper may claim. */
  lemma SweepableIsClaimed(cfg: SourceConfig, w: World, key: ObjectKey)
    requires key in w.reservations
    ensures Sweepable(w.reservations[key], cfg.minimumAge, w.now) <==>
      Sources.Apply(cfg, w, Sweeping(SweepClaim(key))).nextToken == w.nextToken + 1
  {
  }

  /**
   * What a sweep may have done: only due reservations are gone, their unreferenced objects with them, and nothing else.
   */
  ghost predicate Swept(
    rows0: map<ObjectKey, ReservationRow>, store0: set<SourceId>, sources: map<SourceId, SourceRow>,
    rows: map<ObjectKey, ReservationRow>, store: set<SourceId>, minimumAge: nat, now: Time)
  {
    && rows.Keys <= rows0.Keys
    && (forall key :: key in rows0 && !Sweepable(rows0[key], minimumAge, now) ==>
          key in rows && rows[key] == rows0[key])
    && (forall id :: Source(id) in rows0 && Source(id) !in rows && id !in sources ==> id !in store)
    && store <= store0
    && (forall id :: id in store0 && id !in store ==> Source(id) in rows0 && Source(id) !in rows && id !in sources)
  }

  lemma SweptOneMore(
    rows0: map<ObjectKey, ReservationRow>, store0: set<SourceId>, sources: map<SourceId, SourceRow>,
    rows: map<ObjectKey, ReservationRow>, store: set<SourceId>, minimumAge: nat, now: Time, key: ObjectKey)
    requires Swept(rows0, store0, sources, rows, store, minimumAge, now)
    requires key in rows && Sweepable(rows0[key], minimumAge, now)
    ensures Swept(
      rows0, store0, sources, rows - {key}, if key.Source? && key.id !in sources then store - {key.id} else store,
      minimumAge, now)
    ensures |rows| == |rows - {key}| + 1
  {
  }

  lemma RowCounts(rows: map<ObjectKey, ReservationRow>, key: ObjectKey, row: ReservationRow)
    requires key in rows
    ensures |rows[key := row]| == |rows| && |rows - {key}| == |rows| - 1
  {
    assert rows[key := row].Keys == rows.Keys;
    assert (rows - {key}).Keys == rows.Keys - {key};
  }

  class Repository {
    var core: State
    var reservations: map<ObjectKey, ReservationRow>
    var sources: map<SourceId, SourceRow>
    var idempotency: map<IdemKey, IdemRecord>
    var store: set<SourceId>
    var nextToken: nat

    constructor ()
      ensures reservations == map[] && sources == map[] && idempotency == map[] && store == {} && nextToken == 0
      ensures core == Empty()
    {
      core, reservations, sources, idempotency, store, nextToken := Empty(), map[], map[], map[], {}, 0;
    }

    /** This database and this store, in a world whose clock and processes are `base`'s. */
    ghost function In(base: World): World
      reads this
    {
      base.(
        core := core, reservations := reservations, sources := sources, idempotency := idempotency, store := store,
        nextToken := nextToken)
    }

    /** Insert if there is no row, else take over a row whose lease has run out. */
    method TryAcquireReservation(key: ObjectKey, owner: Owner, lease: nat, now: Time) returns (acquired: bool)
      modifies this`reservations
      ensures (reservations, acquired) == TryAcquire(old(reservations), key, owner, lease, now)
    {
      if key !in reservations {
        reservations := reservations[key := ReservationRow(owner, now + lease, now)];
        return true;
      }
      if reservations[key].leaseUntil <= now {
        var row := ReservationRow(owner, now + lease, now);
        reservations := reservations[key := row];
        return true;
      }
      acquired := false;
    }

    /** Both row locks, in the order of the keys: the order does not matter for what is locked. */
    method LockReservations(first: ObjectKey, second: ObjectKey, owner: Owner, now: Time) returns (ok: bool)
      ensures ok <==> Holds(reservations, first, owner, now) && Holds(reservations, second, owner, now)
    {
      var claims := [first, second];
      var i := 0;
      while i < |claims|
        invariant i <= |claims|
        invariant forall k :: 0 <= k < i ==> Holds(reservations, claims[k], owner, now)
      {
        if !Holds(reservations, claims[i], owner, now) {
          assert claims[i] == first || claims[i] == second;
          return false;
        }
        i := i + 1;
      }
      assert claims[0] == first && claims[1] == second;
      ok := true;
    }

    /** The submission transaction: reservations, tenant, replay, limits, then the four writes. */
    method SubmitTransaction(
      cfg: SourceConfig, ghost base: World, id: SourceId, sub: Submission, now: Time, bundleReady: bool,
      callbackUsable: bool)
      returns (outcome: SubmitOutcome)
      requires base.now == now && id in base.submissions && base.submissions[id] == sub
      modifies this
      ensures (In(base), outcome) == SubmitTx(cfg, old(In(base)), id, bundleReady, callbackUsable)
    {
      var coordination := Coordination(sub.tenant, sub.digest);
      var locked := LockReservations(coordination, Source(id), Submitter(id), now);
      if !locked {
        return SubmitUnavailable;
      }
      if || sub.tenant !in core.tenants || !core.tenants[sub.tenant].active
         || !ValidPolicy(core.tenants[sub.tenant].policy)
      {
        return SubmitUnavailable;
      }
      var policy := core.tenants[sub.tenant].policy;
      var k := IdemKey(sub.tenant, sub.digest);
      if k in idempotency && now < idempotency[k].expiresAt {
        if idempotency[k].hash != sub.hash {
          return SubmitConflict;
        }
        return if idempotency[k].job in core.jobs then ReplayedJob(idempotency[k].job) else SubmitUnavailable;
      }
      if sub.sourceBytes > policy.maxSourceBytes {
        return SubmitInvalid;
      }
      if |QueuedJobs(core.jobs, sub.tenant)| >= policy.maxQueuedJobs {
        return SubmitQueueFull;
      }
      if !bundleReady || !callbackUsable {
        return SubmitInvalid;
      }
      sources := sources[id := SourceRow(sub.tenant, None, None, 0, 0, 0)];
      var j := core.nextJobId;
      core := core.(
        jobs := core.jobs[j := NewJob(sub.tenant, sub.limits, sub.callback, id, sub.hash, now)], nextJobId := j + 1);
      idempotency := idempotency[k := IdemRecord(sub.hash, j, now + cfg.idempotencyTtl)];
      reservations := reservations - {coordination, Source(id)};
      outcome := Accepted(j);
    }

    /**
     * The sweep loop: take over one due reservation after the other, delete its object unless a source row refers to
     * it, remove the reservation. It stops at the first failing delete. `deletes` says which object deletes succeed.
     */
    method SweepReservations(
      minimumAge: nat, limit: nat, now: Time, deletes: seq<bool>)
      returns (reaped: nat, failed: bool)
      requires |deletes| >= limit
      modifies this`reservations, this`store, this`nextToken
      ensures reaped <= limit && |old(reservations)| == |reservations| + reaped
      ensures Swept(old(reservations), old(store), sources, reservations, store, minimumAge, now)
      ensures !failed && reaped < limit ==>
        forall key :: key in reservations ==> !Sweepable(reservations[key], minimumAge, now)
    {
      reaped, failed := 0, false;
      while reaped < limit && exists key :: key in reservations && Sweepable(reservations[key], minimumAge, now)
        invariant reaped <= limit && |old(reservations)| == |reservations| + reaped && !failed
        invariant Swept(old(reservations), old(store), sources, reservations, store, minimumAge, now)
        invariant forall key :: key in reservations ==> reservations[key] == old(reservations)[key]
      {
        var key :| key in reservations && Sweepable(reservations[key], minimumAge, now);
        var token := nextToken;
        nextToken := nextToken + 1;
        ghost var rows := reservations;
        SweptOneMore(old(reservations), old(store), sources, rows, store, minimumAge, now, key);
        var row := reservations[key].(owner := Sweeper(token), leaseUntil := now + SWEEP_LEASE);
        reservations := reservations[key := row];
        RowCounts(rows, key, row);
        if key.Source? && key.id !in sources {
          if !deletes[reaped] {
            failed := true;
            return;
          }
          store := store - {key.id};
        }
        reservations := reservations - {key};
        assert reservations == rows - {key};
        reaped := reaped + 1;
      }
    }

    /** Events, unexpired records and other jobs that still need the source. */
    method RetentionBlockers(
      ghost base: World, j: JobId, source: SourceId, tenant: TenantId, now: Time)
      returns (blocked: bool)
      requires base.now == now
      ensures blocked == Blocked(In(base), j, source, tenant)
    {
      if j in core.outbox {
        return true;
      }
      if exists k ::
           k in idempotency && k.tenant == tenant && idempotency[k].job == j && now < idempotency[k].expiresAt
      {
        return true;
      }
      blocked := exists i :: i in core.jobs && i != j && core.jobs[i].source == source;
    }

    /** Marks or re-leases the source of a retained job. */
    method ClaimRetention(
      cfg: SourceConfig, ghost base: World, j: JobId, lease: nat, now: Time)
      returns (token: Option<nat>)
      requires base.now == now
      modifies this`sources, this`nextToken
      ensures token.Some? <==> old(Retainable(cfg, In(base), j)) && 0 < lease <= MAX_LEASE
      ensures token.Some? ==> token.value == old(nextToken)
      ensures In(base).(retentions := base.retentions) ==
              RetentionStep(cfg, old(In(base)), RetentionClaim(j, lease)).(retentions := base.retentions)
    {
      token := None;
      if lease == 0 || lease > MAX_LEASE || j !in core.jobs {
        return;
      }
      var job := core.jobs[j];
      if || job.tenant !in core.tenants || !Terminal(job.status) || job.completedAt == None
         || now < job.completedAt.value + cfg.retention
      {
        return;
      }
      if job.source !in sources || sources[job.source].tenant != job.tenant {
        return;
      }
      var row := sources[job.source];
      if row.markedAt.Some? && !(row.deleteNextAttemptAt <= now && row.deleteLeaseUntil <= now) {
        return;
      }
      var blocked := RetentionBlockers(base, j, job.source, job.tenant, now);
      if blocked {
        return;
      }
      token := Some(nextToken);
      sources := sources[job.source := row.(markedAt := if row.markedAt.Some? then row.markedAt else Some(now),
                                            deleteToken := token, deleteLeaseUntil := now + lease,
                                            deleteNextAttemptAt := now,
                                            deleteAttemptCount := row.deleteAttemptCount + 1)];
      nextToken := nextToken + 1;
    }

    /** The row locks of a retention worker: tenant, terminal job, then the source under its token. */
    method LockRetention(ghost base: World, n: nat, r: Retention, now: Time) returns (locked: bool)
      requires base.now == now && n in base.retentions && base.retentions[n] == r
      ensures locked <==> RetentionFence(In(base), n) && sources[r.source].markedAt.Some?
    {
      if r.tenant !in core.tenants || r.job !in core.jobs || core.jobs[r.job].tenant != r.tenant {
        return false;
      }
      if !Terminal(core.jobs[r.job].status) || core.jobs[r.job].source != r.source {
        return false;
      }
      if r.source !in sources || sources[r.source].tenant != r.tenant {
        return false;
      }
      var row := sources[r.source];
      locked := row.deleteToken == Some(n) && row.markedAt.Some? && now < row.deleteLeaseUntil;
    }

    /** Removes attempts, job and source row of a deleted object, under the retention fence. */
    method FinalizeRetention(cfg: SourceConfig, ghost base: World, n: nat, r: Retention, now: Time) returns (ok: bool)
      requires base.now == now && n in base.retentions && base.retentions[n] == r && r.phase == RetentionDeleted
      modifies this`core, this`sources
      ensures In(base) == RetentionStep(cfg, old(In(base)), RetentionFinalize(n))
      ensures ok ==>
        r.job in old(core).jobs && core.jobs == old(core).jobs - {r.job} && sources == old(sources) - {r.source}
    {
      ok := LockRetention(base, n, r, now);
      if !ok {
        return;
      }
      var blocked := RetentionBlockers(base, r.job, r.source, r.tenant, now);
      if blocked {
        return false;
      }
      assert Retirable(core, r.job);
      core := RetireTx(core, r.job);
      sources := sources - {r.source};
    }

    /** One expiry batch: up to `batch` expired records, and none is left over if the batch was not full. */
    method ExpireIdempotencyBatch(batch: nat, now: Time) returns (removed: set<IdemKey>)
      modifies this`idempotency
      ensures |removed| <= batch && removed <= old(idempotency).Keys
      ensures forall k :: k in removed ==> old(idempotency)[k].expiresAt <= now
      ensures idempotency == old(idempotency) - removed
      ensures |removed| < batch ==> forall k :: k in idempotency ==> now < idempotency[k].expiresAt
    {
      removed := {};
      while |removed| < batch && exists k :: k in idempotency && k !in removed && idempotency[k].expiresAt <= now
        invariant |removed| <= batch && removed <= idempotency.Keys
        invariant forall k :: k in removed ==> idempotency[k].expiresAt <= now
      {
        var k :| k in idempotency && k !in removed && idempotency[k].expiresAt <= now;
        removed := removed + {k};
      }
      idempotency := idempotency - removed;
    }
  }
}
