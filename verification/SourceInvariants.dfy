/** What every step of submission, sweeping and retention keeps. */
module SourceInvariants {
  import opened Options
  import opened Events
  import opened JobModel
  import opened JobInvariants
  import opened Sources

  // ------------------------------------------------------------------ clauses

  /** A submission that can no longer publish its source: it has given up, or it lost its reservation. */
  predicate Powerless(w: World, id: SourceId)
    requires id in w.submissions
  {
    match w.submissions[id].phase
    case Begun => false
    case Coordinated => false
    case Admitted => false
    case Reserved => !Sources.Owns(w.reservations, Source(id), Submitter(id))
    case Putting => !Sources.Owns(w.reservations, Source(id), Submitter(id))
    case Stored => !Sources.Owns(w.reservations, Source(id), Submitter(id))
    case _ => true
  }

  predicate SubmissionOk(cfg: SourceConfig, w: World, id: SourceId)
    requires id in w.submissions
  {
    var sub := w.submissions[id];
    && id < w.nextSource
    && sub.startedAt <= w.now
    && sub.deadline <= sub.startedAt + cfg.submitTimeout
    && (sub.put.InFlight? ==> sub.put.deadline <= sub.deadline)
    && (sub.put == Landed && id !in w.doomed ==> id in w.store)
    && (id in w.store ==> sub.put == Landed)
    && match sub.phase
       case Begun => sub.put == NotStarted && Source(id) !in w.reservations && id !in w.doomed
       case Coordinated => sub.put == NotStarted && Source(id) !in w.reservations && id !in w.doomed
       case Admitted => sub.put == NotStarted && Source(id) !in w.reservations && id !in w.doomed
       case Reserved => sub.put == NotStarted
       case Putting => sub.put != NotStarted
       case Stored => sub.put == Landed
       case Committed => sub.put == Landed && Source(id) !in w.reservations
       case Aborting => sub.put == Landed
       case Compensating => sub.put == Landed && id in w.doomed
       case Compensated => sub.put == Landed && id in w.doomed && id !in w.store
       case Gone => true
  }

  ghost predicate SubmissionsOk(cfg: SourceConfig, w: World)
  {
    && (forall id :: id in w.submissions ==> SubmissionOk(cfg, w, id))
    && (forall id :: id in w.store ==> id in w.submissions)
  }

  /** A source row belongs to a committed submission, and its object is stored until retention marks it. */
  predicate SourceOk(w: World, id: SourceId)
    requires id in w.sources
  {
    && InPhase(w, id, Committed)
    && (w.sources[id].deleteToken.Some? ==> w.sources[id].markedAt.Some?)
    && (w.sources[id].markedAt == None ==> id !in w.doomed)
  }

  ghost predicate SourcesOk(w: World)
  {
    forall id :: id in w.sources ==> SourceOk(w, id)
  }

  /** A job owns its source row, and a marked source belongs to a terminal job. */
  predicate JobSourceOk(w: World, j: JobId)
    requires j in w.core.jobs
  {
    var job := w.core.jobs[j];
    && job.source in w.sources
    && w.sources[job.source].tenant == job.tenant
    && (w.sources[job.source].markedAt.Some? ==> Terminal(job.status))
  }

  ghost predicate JobSourcesOk(w: World)
  {
    && (forall j :: j in w.core.jobs ==> JobSourceOk(w, j))
    && (forall i, j :: i in w.core.jobs && j in w.core.jobs && i != j ==>
          w.core.jobs[i].source != w.core.jobs[j].source)
  }

  /** Deletes are only ever issued for objects that nobody can publish or still needs. */
  predicate DoomedOk(w: World, id: SourceId)
  {
    id in w.submissions && Powerless(w, id)
  }

  predicate SweepOk(w: World, n: nat)
    requires n in w.sweeps
  {
    var sweep := w.sweeps[n];
    && n < w.nextToken
    && (sweep.key.Source? ==>
          && sweep.key.id in w.submissions && Powerless(w, sweep.key.id)
          && w.submissions[sweep.key.id].phase != Committed
          && (sweep.phase == SweepDeleting || sweep.phase == SweepDeleted ==> sweep.key.id in w.doomed)
          && sweep.phase != SweepReferenced)
  }

  predicate RetentionOk(w: World, n: nat)
    requires n in w.retentions
  {
    var r := w.retentions[n];
    && n < w.nextToken
    && InPhase(w, r.source, Committed)
    && (r.source in w.sources ==> w.sources[r.source].markedAt.Some?)
    && (r.phase != RetentionClaimed ==> r.source in w.doomed)
    && (r.phase == RetentionDeleted ==> r.source !in w.store)
  }

  ghost predicate WorkersOk(w: World)
  {
    && (forall id :: id in w.doomed ==> DoomedOk(w, id))
    && (forall n :: n in w.sweeps ==> SweepOk(w, n))
    && (forall n :: n in w.retentions ==> RetentionOk(w, n))
  }

  predicate ReservationOk(w: World, id: SourceId)
    requires Source(id) in w.reservations
  {
    var row := w.reservations[Source(id)];
    && id in w.submissions
    && w.submissions[id].startedAt <= row.createdAt
    && (row.owner.Submitter? ==> row.owner.id == id && row.createdAt + ADMISSION_LEASE <= row.leaseUntil)
    && (row.owner.Sweeper? ==> row.owner.n in w.sweeps && w.sweeps[row.owner.n].key == Source(id))
  }

  ghost predicate ReservationsOk(w: World)
  {
    forall id :: Source(id) in w.reservations ==> ReservationOk(w, id)
  }

  /** Every unexpired record names a job of its tenant that still exists and was made by the same request. */
  predicate RecordOk(w: World, k: IdemKey)
    requires k in w.idempotency
  {
    var record := w.idempotency[k];
    w.now < record.expiresAt ==>
      && record.job in w.core.jobs
      && w.core.jobs[record.job].tenant == k.tenant
      && w.core.jobs[record.job].requestHash == record.hash
  }

  ghost predicate RecordsOk(w: World)
  {
    forall k :: k in w.idempotency ==> RecordOk(w, k)
  }

  ghost predicate WorldInv(cfg: SourceConfig, w: World)
  {
    && Inv(cfg.jobs, w.core)
    && SubmissionsOk(cfg, w)
    && SourcesOk(w)
    && JobSourcesOk(w)
    && WorkersOk(w)
    && ReservationsOk(w)
    && RecordsOk(w)
  }

  lemma StartInv(cfg: SourceConfig)
    ensures WorldInv(cfg, Start())
  {
  }

  // -------------------------------------------------------------- time and jobs

  lemma TickKeepsInv(cfg: SourceConfig, w: World, d: nat, w': World)
    requires WorldInv(cfg, w) && w' == w.(now := w.now + d)
    ensures WorldInv(cfg, w')
  {
    forall id | id in w'.submissions ensures SubmissionOk(cfg, w', id) { assert SubmissionOk(cfg, w, id); }
    forall id | id in w'.sources ensures SourceOk(w', id) { assert SourceOk(w, id); }
    forall j | j in w'.core.jobs ensures JobSourceOk(w', j) { assert JobSourceOk(w, j); }
    forall id | id in w'.doomed ensures DoomedOk(w', id) { assert DoomedOk(w, id); }
    forall n | n in w'.sweeps ensures SweepOk(w', n) { assert SweepOk(w, n); }
    forall n | n in w'.retentions ensures RetentionOk(w', n) { assert RetentionOk(w, n); }
    forall id | Source(id) in w'.reservations ensures ReservationOk(w', id) { assert ReservationOk(w, id); }
    forall k | k in w'.idempotency ensures RecordOk(w', k) { assert RecordOk(w, k); }
  }
}
