/** Each step of submission, sweeping and retention keeps the invariant. */
module SourceSteps {
  import opened Options
  import opened Events
  import opened JobModel
  import opened JobInvariants
  import opened JobSteps
  import opened JobRuns
  import opened Sources
  import opened SourceInvariants

  // --------------------------------------------------------------- job steps

  lemma CoreKeepsInv(cfg: SourceConfig, w: World, step: Step, w': World)
    requires ValidConfig(cfg.jobs) && WorldInv(cfg, w) && !step.EnqueueStep? && !step.RetireStep?
    requires w' == w.(core := JobModel.Apply(cfg.jobs, w.core, step))
    ensures WorldInv(cfg, w')
  {
    StepKeepsInv(cfg.jobs, w.core, step);
    StepAdvances(cfg.jobs, w.core, step);
    OtherStepsKeepJobs(cfg.jobs, w.core, step);
    forall j | j in w'.core.jobs ensures j in w.core.jobs && JobAdvances(w.core.jobs[j], w'.core.jobs[j]) {}
    CoreFrame(cfg, w, w');
  }

  /** The invariant survives any change of the job tables in which jobs only advance. */
  lemma CoreFrame(cfg: SourceConfig, w: World, w': World)
    requires WorldInv(cfg, w) && w' == w.(core := w'.core) && Inv(cfg.jobs, w'.core)
    requires w'.core.jobs.Keys == w.core.jobs.Keys
    requires forall j :: j in w.core.jobs ==> JobAdvances(w.core.jobs[j], w'.core.jobs[j])
    ensures WorldInv(cfg, w')
  {
    forall id | id in w'.submissions ensures SubmissionOk(cfg, w', id) { assert SubmissionOk(cfg, w, id); }
    forall id | id in w'.sources ensures SourceOk(w', id) { assert SourceOk(w, id); }
    forall j | j in w'.core.jobs ensures JobSourceOk(w', j) { assert JobSourceOk(w, j); }
    WorkersFrame(w, w');
    forall id | Source(id) in w'.reservations ensures ReservationOk(w', id) { assert ReservationOk(w, id); }
    forall k | k in w'.idempotency ensures RecordOk(w', k) { assert RecordOk(w, k); }
  }

  lemma WorkersFrame(w: World, w': World)
    requires WorkersOk(w)
    requires w'.submissions == w.submissions && w'.reservations == w.reservations && w'.doomed == w.doomed
    requires w'.sweeps == w.sweeps
    requires w'.retentions == w.retentions && w'.sources == w.sources && w'.store == w.store
    requires w'.nextToken == w.nextToken
    ensures WorkersOk(w')
  {
  }

  // ---------------------------------------------------------- submission steps

  /** What an uncommitted submission may change: its own record, its own reservation and its own object. */
  predicate OwnChange(w: World, w': World, id: SourceId)
  {
    && w'.now == w.now && w'.core == w.core && w'.sources == w.sources && w'.idempotency == w.idempotency
    && w'.sweeps == w.sweeps && w'.retentions == w.retentions && w'.nextToken == w.nextToken
    && id in w'.submissions && w'.submissions == w.submissions[id := w'.submissions[id]]
    && w.nextSource <= w'.nextSource
    && w.store - {id} == w'.store - {id}
    && w.doomed - {id} == w'.doomed - {id} && w.doomed <= w'.doomed
  }

  predicate SameReservation(w: World, w': World, key: ObjectKey)
  {
    if key in w.reservations
    then key in w'.reservations && w'.reservations[key] == w.reservations[key]
    else key !in w'.reservations
  }

  /** The new record is consistent, and a submission that could not publish still cannot. */
  ghost predicate OwnChangeOk(cfg: SourceConfig, w: World, w': World, id: SourceId)
    requires OwnChange(w, w', id)
  {
    && (id in w.submissions ==>
          w.submissions[id].phase != Committed && w'.submissions[id].startedAt == w.submissions[id].startedAt)
    && w'.submissions[id].phase != Committed
    && SubmissionOk(cfg, w', id)
    && (Source(id) in w'.reservations ==> ReservationOk(w', id))
    && (id in w'.doomed ==> Powerless(w', id))
    && (id in w.submissions && Powerless(w, id) ==> Powerless(w', id))
    && (forall i :: i != id ==> SameReservation(w, w', Source(i)))
  }

  lemma OwnSubmissions(cfg: SourceConfig, w: World, w': World, id: SourceId)
    requires WorldInv(cfg, w) && OwnChange(w, w', id) && OwnChangeOk(cfg, w, w', id)
    ensures SubmissionsOk(cfg, w') && ReservationsOk(w')
  {
    forall i | i in w'.submissions ensures SubmissionOk(cfg, w', i) {
      if i != id {
        assert SubmissionOk(cfg, w, i) && SameReservation(w, w', Source(i));
        assert i in w.store - {id} <==> i in w'.store - {id};
        assert i in w.doomed - {id} <==> i in w'.doomed - {id};
      }
    }
    forall i | i in w'.store ensures i in w'.submissions {
      assert i != id ==> i in w'.store - {id};
    }
    forall i | Source(i) in w'.reservations ensures ReservationOk(w', i) {
      if i != id {
        assert SameReservation(w, w', Source(i)) && ReservationOk(w, i);
      }
    }
  }

  lemma OwnWorkers(cfg: SourceConfig, w: World, w': World, id: SourceId)
    requires WorldInv(cfg, w) && OwnChange(w, w', id) && OwnChangeOk(cfg, w, w', id)
    ensures WorkersOk(w')
  {
    forall i | i != id && i in w.submissions ensures Powerless(w', i) == Powerless(w, i) {
      assert SameReservation(w, w', Source(i));
    }
    forall i | i in w'.doomed ensures DoomedOk(w', i) {
      if i != id {
        assert i in w'.doomed - {id};
        assert DoomedOk(w, i);
      }
    }
    forall n | n in w'.sweeps ensures SweepOk(w', n) { assert SweepOk(w, n); }
    forall n | n in w'.retentions ensures RetentionOk(w', n) {
      assert RetentionOk(w, n);
      var k := w.retentions[n].source;
      assert k in w'.store ==> k in w'.store - {id};
    }
  }

  lemma OwnChangeKeepsInv(cfg: SourceConfig, w: World, w': World, id: SourceId)
    requires WorldInv(cfg, w) && OwnChange(w, w', id) && OwnChangeOk(cfg, w, w', id)
    ensures WorldInv(cfg, w')
  {
    OwnSubmissions(cfg, w, w', id);
    OwnWorkers(cfg, w, w', id);
    forall i | i in w'.sources ensures SourceOk(w', i) {
      assert SourceOk(w, i);
      assert i in w'.doomed ==> i in w'.doomed - {id};
    }
    forall j | j in w'.core.jobs ensures JobSourceOk(w', j) { assert JobSourceOk(w, j); }
    forall k | k in w'.idempotency ensures RecordOk(w', k) { assert RecordOk(w, k); }
  }

  lemma BeginKeepsInv(cfg: SourceConfig, w: World, step: SubmissionMove, w': World)
    requires WorldInv(cfg, w) && step.Begin? && w' == SubmissionStep(cfg, w, step)
    ensures WorldInv(cfg, w')
  {
    var id := w.nextSource;
    assert id in w.submissions ==> SubmissionOk(cfg, w, id);
    assert Source(id) in w.reservations ==> ReservationOk(w, id);
    assert id in w.doomed ==> DoomedOk(w, id);
    assert id in w.store ==> id in w.submissions;
    OwnChangeKeepsInv(cfg, w, w', id);
  }

  lemma ReserveKeepsInv(cfg: SourceConfig, w: World, step: SubmissionMove, id: SourceId, w': World)
    requires WorldInv(cfg, w) && w' == SubmissionStep(cfg, w, step)
    requires (step.Coordinate? && step.id == id) || (step.Recheck? && step.id == id) || (step.Reserve? && step.id == id)
    ensures WorldInv(cfg, w')
  {
    if w' != w {
      assert SubmissionOk(cfg, w, id);
      OwnChangeKeepsInv(cfg, w, w', id);
    }
  }

  lemma PutKeepsInv(cfg: SourceConfig, w: World, step: SubmissionMove, id: SourceId, w': World)
    requires WorldInv(cfg, w) && w' == SubmissionStep(cfg, w, step)
    requires
      || (step.StartPut? && step.id == id) || (step.PutLands? && step.id == id) || (step.PutReturns? && step.id == id)
    ensures WorldInv(cfg, w')
  {
    if w' != w {
      assert SubmissionOk(cfg, w, id);
      assert Source(id) in w.reservations ==> ReservationOk(w, id);
      assert id in w.doomed ==> DoomedOk(w, id);
      OwnChangeKeepsInv(cfg, w, w', id);
    }
  }

  lemma AbortKeepsInv(cfg: SourceConfig, w: World, id: SourceId, w': World)
    requires WorldInv(cfg, w) && InPhase(w, id, Stored) && w' == Move(w, id, Aborting)
    ensures WorldInv(cfg, w')
  {
    assert SubmissionOk(cfg, w, id);
    assert Source(id) in w.reservations ==> ReservationOk(w, id);
    assert id in w.doomed ==> DoomedOk(w, id);
    OwnChangeKeepsInv(cfg, w, w', id);
  }

  lemma FinishKeepsInv(cfg: SourceConfig, w: World, id: SourceId, w': World)
    requires WorldInv(cfg, w) && w' == SubmissionStep(cfg, w, SubmissionMove.Finish(id))
    ensures WorldInv(cfg, w')
  {
    if w' != w {
      assert SubmissionOk(cfg, w, id);
      assert Source(id) in w.reservations ==> ReservationOk(w, id);
      OwnChangeKeepsInv(cfg, w, w', id);
    }
  }

  lemma CompensateKeepsInv(cfg: SourceConfig, w: World, step: SubmissionMove, id: SourceId, w': World)
    requires WorldInv(cfg, w) && w' == SubmissionStep(cfg, w, step)
    requires
      || (step.Compensate? && step.id == id) || (step.CompensationDeletes? && step.id == id)
    ensures WorldInv(cfg, w')
  {
    if w' != w {
      assert SubmissionOk(cfg, w, id);
      assert Source(id) in w.reservations ==> ReservationOk(w, id);
      OwnChangeKeepsInv(cfg, w, w', id);
    }
  }

  lemma ReleaseKeepsInv(cfg: SourceConfig, w: World, id: SourceId, w': World)
    requires WorldInv(cfg, w) && w' == SubmissionStep(cfg, w, Release(id))
    ensures WorldInv(cfg, w')
  {
    if w' != w {
      ReleaseUnfolds(cfg, w, id, w');
      var sub := w.submissions[id];
      var rows := Drop(w.reservations, Coordination(sub.tenant, sub.digest), Submitter(id));
      DropsOnly(w.reservations, rows, Drop(rows, Source(id), Submitter(id)), sub, id);
      ReleasedKeepsInv(cfg, w, id, w'.reservations, w');
    }
  }

  lemma ReleaseUnfolds(cfg: SourceConfig, w: World, id: SourceId, w': World)
    requires w' == SubmissionStep(cfg, w, Release(id)) && w' != w
    ensures id in w.submissions && w.submissions[id].phase != Committed
    ensures w' == Move(w, id, Gone).(reservations := w'.reservations)
    ensures
      var sub := w.submissions[id];
      var rows := Drop(w.reservations, Coordination(sub.tenant, sub.digest), Submitter(id));
      w'.reservations == rows || w'.reservations == Drop(rows, Source(id), Submitter(id))
  {
  }

  lemma PutExistsKeepsInv(cfg: SourceConfig, w: World, id: SourceId, w': World)
    requires WorldInv(cfg, w) && w' == SubmissionStep(cfg, w, PutExists(id))
    ensures WorldInv(cfg, w')
  {
    if w' != w {
      var sub := w.submissions[id];
      var rows := Drop(w.reservations, Coordination(sub.tenant, sub.digest), Submitter(id));
      var both := DropBoth(w.reservations, sub, id);
      DropsOnly(w.reservations, rows, both, sub, id);
      ReleasedKeepsInv(cfg, w, id, both, w');
    }
  }

  lemma DropsOnly(
    all: map<ObjectKey, ReservationRow>, rows: map<ObjectKey, ReservationRow>, both: map<ObjectKey, ReservationRow>,
    sub: Submission, id: SourceId)
    requires rows == Drop(all, Coordination(sub.tenant, sub.digest), Submitter(id))
    requires both == Drop(rows, Source(id), Submitter(id))
    ensures forall i :: Source(i) in rows <==> Source(i) in all
    ensures forall i :: i != id ==> (Source(i) in both <==> Source(i) in all)
    ensures forall i :: Source(i) in rows ==> rows[Source(i)] == all[Source(i)]
    ensures forall i :: Source(i) in both ==> Source(i) in all && both[Source(i)] == all[Source(i)]
  {
  }

  lemma ReleasedKeepsInv(cfg: SourceConfig, w: World, id: SourceId, rows: map<ObjectKey, ReservationRow>, w': World)
    requires WorldInv(cfg, w) && id in w.submissions && w.submissions[id].phase != Committed
    requires forall i :: i != id ==> (Source(i) in rows <==> Source(i) in w.reservations)
    requires forall i :: Source(i) in rows ==>
               Source(i) in w.reservations && rows[Source(i)] == w.reservations[Source(i)]
    requires w' == Move(w, id, Gone).(reservations := rows)
    ensures WorldInv(cfg, w')
  {
    assert SubmissionOk(cfg, w, id);
    assert Source(id) in w.reservations ==> ReservationOk(w, id);
    OwnChangeKeepsInv(cfg, w, w', id);
  }

  // ------------------------------------------------------------------- commit

  /** The tables after an accepted submission: source, job and record appear, both reservations go. */
  predicate Publishes(cfg: SourceConfig, w: World, w': World, id: SourceId)
    requires id in w.submissions
  {
    var sub := w.submissions[id];
    var j := w.core.nextJobId;
    var k := IdemKey(sub.tenant, sub.digest);
    && w'.now == w.now && w'.store == w.store && w'.doomed == w.doomed && w'.sweeps == w.sweeps
    && w'.retentions == w.retentions
    && w'.nextSource == w.nextSource && w'.nextToken == w.nextToken
    && w'.core == w.core.(
      jobs := w.core.jobs[j := NewJob(sub.tenant, sub.limits, sub.callback, id, sub.hash, w.now)], nextJobId := j + 1)
    && w'.sources == w.sources[id := SourceRow(sub.tenant, None, None, 0, 0, 0)]
    && (k in w.idempotency ==> w.idempotency[k].expiresAt <= w.now)
    && w'.idempotency == w.idempotency[k := IdemRecord(sub.hash, j, w.now + cfg.idempotencyTtl)]
    && Holds(w.reservations, Source(id), Submitter(id), w.now)
    && w'.reservations == w.reservations - {Coordination(sub.tenant, sub.digest), Source(id)}
    && w'.submissions == w.submissions[id := sub.(phase := Committed)]
  }

  lemma AcceptedPublishes(cfg: SourceConfig, w: World, id: SourceId, bundleReady: bool, callbackUsable: bool, w': World)
    requires id in w.submissions
    requires SubmitTx(cfg, w, id, bundleReady, callbackUsable).1.Accepted?
    requires w' == Move(SubmitTx(cfg, w, id, bundleReady, callbackUsable).0, id, Committed)
    ensures Publishes(cfg, w, w', id)
    ensures SubmitTx(cfg, w, id, bundleReady, callbackUsable).1.job == w.core.nextJobId
    ensures EnqueueTx(w.core, w.submissions[id].tenant, w.submissions[id].limits, w.submissions[id].callback, id,
                      w.submissions[id].hash, w.now).0 == w'.core
  {
  }

  lemma PublishedSubmissions(cfg: SourceConfig, w: World, w': World, id: SourceId)
    requires WorldInv(cfg, w) && InPhase(w, id, Stored) && Publishes(cfg, w, w', id)
    ensures SubmissionsOk(cfg, w') && ReservationsOk(w') && SourcesOk(w')
  {
    forall i | i in w'.submissions ensures SubmissionOk(cfg, w', i) { assert SubmissionOk(cfg, w, i); }
    forall i | Source(i) in w'.reservations ensures ReservationOk(w', i) { assert ReservationOk(w, i); }
    forall i | i in w'.sources ensures SourceOk(w', i) {
      if i != id {
        assert SourceOk(w, i);
      } else {
        assert id in w.doomed ==> DoomedOk(w, id);
      }
    }
  }

  lemma PublishedWorkers(cfg: SourceConfig, w: World, w': World, id: SourceId)
    requires WorldInv(cfg, w) && InPhase(w, id, Stored) && Publishes(cfg, w, w', id)
    ensures WorkersOk(w')
  {
    forall i | i in w.submissions && i != id ensures Powerless(w', i) == Powerless(w, i) {}
    assert !Powerless(w, id);
    forall i | i in w'.doomed ensures DoomedOk(w', i) { assert DoomedOk(w, i); }
    forall n | n in w'.sweeps ensures SweepOk(w', n) { assert SweepOk(w, n); }
    forall n | n in w'.retentions ensures RetentionOk(w', n) { assert RetentionOk(w, n); }
  }

  lemma PublishedJobs(cfg: SourceConfig, w: World, w': World, id: SourceId)
    requires WorldInv(cfg, w) && InPhase(w, id, Stored) && Publishes(cfg, w, w', id)
    ensures JobSourcesOk(w')
  {
    var j := w.core.nextJobId;
    assert id in w.sources ==> SourceOk(w, id);
    forall i | i in w.core.jobs
      ensures i < j && w.core.jobs[i].source in w.sources && w.core.jobs[i].source != id
    {
      assert JobSourceOk(w, i);
    }
    forall i | i in w'.core.jobs ensures JobSourceOk(w', i) {
      if i != j { assert JobSourceOk(w, i); }
    }
  }

  lemma PublishedRecords(cfg: SourceConfig, w: World, w': World, id: SourceId)
    requires WorldInv(cfg, w) && InPhase(w, id, Stored) && Publishes(cfg, w, w', id)
    ensures RecordsOk(w')
  {
    assert w.core.nextJobId !in w.core.jobs;
    forall k | k in w'.idempotency ensures RecordOk(w', k) {
      if k != IdemKey(w.submissions[id].tenant, w.submissions[id].digest) { assert RecordOk(w, k); }
    }
  }

  lemma CommitKeepsInv(cfg: SourceConfig, w: World, step: SubmissionMove, w': World)
    requires WorldInv(cfg, w) && step.CommitTx? && w' == SubmissionStep(cfg, w, step)
    ensures WorldInv(cfg, w')
  {
    if InPhase(w, step.id, Stored) {
      var id := step.id;
      var sub := w.submissions[id];
      var r := SubmitTx(cfg, w, id, step.bundleReady, step.callbackUsable);
      if r.1.Accepted? {
        AcceptedPublishes(cfg, w, id, step.bundleReady, step.callbackUsable, w');
        EnqueueKeepsInv(cfg.jobs, w.core, sub.tenant, sub.limits, sub.callback, id, sub.hash, w.now);
        PublishedSubmissions(cfg, w, w', id);
        PublishedWorkers(cfg, w, w', id);
        PublishedJobs(cfg, w, w', id);
        PublishedRecords(cfg, w, w', id);
      } else {
        assert r.0 == w;
        AbortKeepsInv(cfg, w, id, w');
      }
    }
  }

  lemma SubmissionStepKeepsInv(cfg: SourceConfig, w: World, step: SubmissionMove, w': World)
    requires WorldInv(cfg, w) && w' == SubmissionStep(cfg, w, step)
    ensures WorldInv(cfg, w')
  {
    match step
    case Begin(_, _, _, _, _, _, _) => BeginKeepsInv(cfg, w, step, w');
    case Coordinate(id, _) => ReserveKeepsInv(cfg, w, step, id, w');
    case Recheck(id) => ReserveKeepsInv(cfg, w, step, id, w');
    case Reserve(id) => ReserveKeepsInv(cfg, w, step, id, w');
    case StartPut(id) => PutKeepsInv(cfg, w, step, id, w');
    case PutLands(id) => PutKeepsInv(cfg, w, step, id, w');
    case PutReturns(id) => PutKeepsInv(cfg, w, step, id, w');
    case PutExists(id) => PutExistsKeepsInv(cfg, w, id, w');
    case CommitTx(_, _, _) => CommitKeepsInv(cfg, w, step, w');
    case Rollback(id) => if InPhase(w, id, Stored) { AbortKeepsInv(cfg, w, id, w'); }
    case Compensate(id) => CompensateKeepsInv(cfg, w, step, id, w');
    case CompensationDeletes(id) => CompensateKeepsInv(cfg, w, step, id, w');
    case Release(id) => ReleaseKeepsInv(cfg, w, id, w');
    case Finish(id) => FinishKeepsInv(cfg, w, id, w');
  }

  // -------------------------------------------------------------------- sweeper

  /** A sweep can only take over a source reservation that no committed submission holds. */
  lemma SweepClaimKeepsInv(cfg: SourceConfig, w: World, key: ObjectKey, w': World)
    requires WorldInv(cfg, w) && w' == SweepStep(cfg, w, SweepClaim(key)) && w' != w
    ensures WorldInv(cfg, w')
  {
    forall i | i in w.submissions ensures Powerless(w, i) ==> Powerless(w', i) {}
    forall i | i in w'.submissions ensures SubmissionOk(cfg, w', i) { assert SubmissionOk(cfg, w, i); }
    forall i | i in w'.sources ensures SourceOk(w', i) { assert SourceOk(w, i); }
    forall j | j in w'.core.jobs ensures JobSourceOk(w', j) { assert JobSourceOk(w, j); }
    SweepClaimWorkers(cfg, w, key, w');
    forall i | Source(i) in w'.reservations ensures ReservationOk(w', i) { assert ReservationOk(w, i); }
    forall k | k in w'.idempotency ensures RecordOk(w', k) { assert RecordOk(w, k); }
  }

  lemma SweepClaimWorkers(cfg: SourceConfig, w: World, key: ObjectKey, w': World)
    requires WorldInv(cfg, w) && w' == SweepStep(cfg, w, SweepClaim(key)) && w' != w
    ensures WorkersOk(w')
  {
    forall i | i in w.submissions ensures Powerless(w, i) ==> Powerless(w', i) {}
    if key.Source? {
      assert ReservationOk(w, key.id) && SubmissionOk(cfg, w, key.id);
      assert Powerless(w', key.id);
    }
    forall i | i in w'.doomed ensures DoomedOk(w', i) { assert DoomedOk(w, i); }
    forall n | n in w'.sweeps ensures SweepOk(w', n) {
      if n != w.nextToken { assert SweepOk(w, n); }
    }
    forall n | n in w'.retentions ensures RetentionOk(w', n) { assert RetentionOk(w, n); }
  }

  /** The reference check never finds a reference: a swept key is never published. */
  lemma SweptKeyIsUnreferenced(cfg: SourceConfig, w: World, n: nat)
    requires WorldInv(cfg, w) && n in w.sweeps && w.sweeps[n].key.Source?
    ensures w.sweeps[n].key.id !in w.sources
  {
  }

  /** What a worker's delete may change: the object goes, or is doomed, and the worker remembers. */
  lemma DeleteFrame(cfg: SourceConfig, w: World, w': World, k: SourceId)
    requires WorldInv(cfg, w) && k in w.submissions && Powerless(w, k)
    requires k in w.sources ==> w.sources[k].markedAt.Some?
    requires w'.doomed == w.doomed + {k} && (w'.store == w.store || w'.store == w.store - {k})
    requires w'.now == w.now && w'.core == w.core && w'.reservations == w.reservations && w'.sources == w.sources
    requires w'.idempotency == w.idempotency && w'.submissions == w.submissions && w'.nextSource == w.nextSource
    requires w'.nextToken == w.nextToken
    requires w'.sweeps.Keys == w.sweeps.Keys && forall n :: n in w.sweeps ==>
      w'.sweeps[n].key == w.sweeps[n].key && SweepOk(w', n)
    requires w'.retentions.Keys == w.retentions.Keys && forall n :: n in w.retentions ==> RetentionOk(w', n)
    ensures WorldInv(cfg, w')
  {
    forall i | i in w'.submissions ensures SubmissionOk(cfg, w', i) { assert SubmissionOk(cfg, w, i); }
    forall i | i in w'.sources ensures SourceOk(w', i) { assert SourceOk(w, i); }
    forall j | j in w'.core.jobs ensures JobSourceOk(w', j) { assert JobSourceOk(w, j); }
    forall i | i in w'.doomed ensures DoomedOk(w', i) { assert i != k ==> DoomedOk(w, i); }
    forall i | Source(i) in w'.reservations ensures ReservationOk(w', i) { assert ReservationOk(w, i); }
    forall i | i in w'.idempotency ensures RecordOk(w', i) { assert RecordOk(w, i); }
  }

  lemma SweepDeleteKeepsInv(cfg: SourceConfig, w: World, step: SweepMove, n: nat, w': World)
    requires WorldInv(cfg, w) && w' == SweepStep(cfg, w, step) && w' != w
    requires (step.SweepCheck? && step.n == n) || (step.SweepDeletes? && step.n == n)
    ensures WorldInv(cfg, w')
  {
    var key := w.sweeps[n].key;
    if key.Source? {
      assert SweepOk(w, n);
      SweptKeyIsUnreferenced(cfg, w, n);
      SweptObjectKeepsInv(cfg, w, n, w'.sweeps[n].phase, w');
    } else {
      SweepNoteKeepsInv(cfg, w, n, w');
    }
  }

  lemma SweptObjectKeepsInv(cfg: SourceConfig, w: World, n: nat, phase: SweepPhase, w': World)
    requires WorldInv(cfg, w) && n in w.sweeps && w.sweeps[n].key.Source? && w.sweeps[n].key.id !in w.sources
    requires phase == SweepDeleting || phase == SweepDeleted
    requires
      var id := w.sweeps[n].key.id;
      && w' == w.(sweeps := w.sweeps[n := Sweep(Source(id), phase)], doomed := w.doomed + {id}, store := w'.store)
      && (w'.store == w.store || w'.store == w.store - {id})
    ensures WorldInv(cfg, w')
  {
    assert SweepOk(w, n);
    forall m | m in w.sweeps ensures w'.sweeps[m].key == w.sweeps[m].key && SweepOk(w', m) { assert SweepOk(w, m); }
    forall m | m in w.retentions ensures RetentionOk(w', m) { assert RetentionOk(w, m); }
    DeleteFrame(cfg, w, w', w.sweeps[n].key.id);
  }

  lemma SweepNoteKeepsInv(cfg: SourceConfig, w: World, n: nat, w': World)
    requires WorldInv(cfg, w) && n in w.sweeps && w.sweeps[n].key.Coordination?
    requires n in w'.sweeps && w'.sweeps[n].key == w.sweeps[n].key && w' == w.(sweeps := w.sweeps[n := w'.sweeps[n]])
    ensures WorldInv(cfg, w')
  {
    forall i | i in w'.submissions ensures SubmissionOk(cfg, w', i) { assert SubmissionOk(cfg, w, i); }
    forall i | i in w'.sources ensures SourceOk(w', i) { assert SourceOk(w, i); }
    forall j | j in w'.core.jobs ensures JobSourceOk(w', j) { assert JobSourceOk(w, j); }
    forall i | i in w'.doomed ensures DoomedOk(w', i) { assert DoomedOk(w, i); }
    forall m | m in w'.sweeps ensures SweepOk(w', m) { assert SweepOk(w, m); }
    forall m | m in w'.retentions ensures RetentionOk(w', m) { assert RetentionOk(w, m); }
    forall i | Source(i) in w'.reservations ensures ReservationOk(w', i) { assert ReservationOk(w, i); }
    forall i | i in w'.idempotency ensures RecordOk(w', i) { assert RecordOk(w, i); }
  }

  lemma SweepFinalizeKeepsInv(cfg: SourceConfig, w: World, n: nat, w': World)
    requires WorldInv(cfg, w) && w' == SweepStep(cfg, w, SweepFinalize(n)) && w' != w
    ensures WorldInv(cfg, w')
  {
    forall i | i in w.submissions ensures Powerless(w, i) ==> Powerless(w', i) {}
    forall i | i in w'.submissions ensures SubmissionOk(cfg, w', i) { assert SubmissionOk(cfg, w, i); }
    forall i | i in w'.sources ensures SourceOk(w', i) { assert SourceOk(w, i); }
    forall j | j in w'.core.jobs ensures JobSourceOk(w', j) { assert JobSourceOk(w, j); }
    forall i | i in w'.doomed ensures DoomedOk(w', i) { assert DoomedOk(w, i); }
    forall m | m in w'.sweeps ensures SweepOk(w', m) { assert SweepOk(w, m); }
    forall m | m in w'.retentions ensures RetentionOk(w', m) { assert RetentionOk(w, m); }
    forall i | Source(i) in w'.reservations ensures ReservationOk(w', i) { assert ReservationOk(w, i); }
    forall i | i in w'.idempotency ensures RecordOk(w', i) { assert RecordOk(w, i); }
  }

  lemma SweepStepKeepsInv(cfg: SourceConfig, w: World, step: SweepMove, w': World)
    requires WorldInv(cfg, w) && w' == SweepStep(cfg, w, step)
    ensures WorldInv(cfg, w')
  {
    if w' != w {
      match step
      case SweepClaim(key) => SweepClaimKeepsInv(cfg, w, key, w');
      case SweepCheck(n) => SweepDeleteKeepsInv(cfg, w, step, n, w');
      case SweepDeletes(n) => SweepDeleteKeepsInv(cfg, w, step, n, w');
      case SweepFinalize(n) => SweepFinalizeKeepsInv(cfg, w, n, w');
    }
  }

  // ------------------------------------------------------------------ retention

  /** Marking a source, or moving its delete lease, while its job is terminal. */
  lemma SourceRowKeepsInv(cfg: SourceConfig, w: World, k: SourceId, row: SourceRow, w': World)
    requires WorldInv(cfg, w) && k in w.sources && row.tenant == w.sources[k].tenant && row.markedAt.Some?
    requires w' == w.(sources := w.sources[k := row], retentions := w'.retentions, nextToken := w'.nextToken)
    requires forall j :: j in w.core.jobs && w.core.jobs[j].source == k ==> Terminal(w.core.jobs[j].status)
    requires w.nextToken <= w'.nextToken && forall n :: n in w'.retentions ==> RetentionOk(w', n)
    ensures WorldInv(cfg, w')
  {
    forall i | i in w'.submissions ensures SubmissionOk(cfg, w', i) { assert SubmissionOk(cfg, w, i); }
    forall i | i in w'.sources ensures SourceOk(w', i) { assert SourceOk(w, i); }
    forall j | j in w'.core.jobs ensures JobSourceOk(w', j) { assert JobSourceOk(w, j); }
    forall i | i in w'.doomed ensures DoomedOk(w', i) { assert DoomedOk(w, i); }
    forall n | n in w'.sweeps ensures SweepOk(w', n) { assert SweepOk(w, n); }
    forall i | Source(i) in w'.reservations ensures ReservationOk(w', i) { assert ReservationOk(w, i); }
    forall i | i in w'.idempotency ensures RecordOk(w', i) { assert RecordOk(w, i); }
  }

  /** A source has one job, so the third blocker never counts anything. */
  lemma SourceHasOneJob(cfg: SourceConfig, w: World, j: JobId)
    requires WorldInv(cfg, w) && j in w.core.jobs
    ensures forall i :: i in w.core.jobs && w.core.jobs[i].source == w.core.jobs[j].source ==> i == j
  {
  }

  lemma RetentionClaimKeepsInv(cfg: SourceConfig, w: World, j: JobId, lease: nat, w': World)
    requires WorldInv(cfg, w) && w' == RetentionStep(cfg, w, RetentionClaim(j, lease)) && w' != w
    ensures WorldInv(cfg, w')
  {
    var k := w.core.jobs[j].source;
    SourceHasOneJob(cfg, w, j);
    assert SourceOk(w, k);
    forall n | n in w'.retentions ensures RetentionOk(w', n) {
      if n != w.nextToken { assert RetentionOk(w, n); }
    }
    SourceRowKeepsInv(cfg, w, k, w'.sources[k], w');
  }

  lemma RetentionFailedKeepsInv(cfg: SourceConfig, w: World, n: nat, delay: nat, w': World)
    requires WorldInv(cfg, w) && w' == RetentionStep(cfg, w, RetentionFailed(n, delay)) && w' != w
    ensures WorldInv(cfg, w')
  {
    var k := w.retentions[n].source;
    assert SourceOk(w, k);
    SourceHasOneJob(cfg, w, w.retentions[n].job);
    forall m | m in w'.retentions ensures RetentionOk(w', m) { assert RetentionOk(w, m); }
    SourceRowKeepsInv(cfg, w, k, w'.sources[k], w');
  }

  lemma RetentionDeleteKeepsInv(cfg: SourceConfig, w: World, step: RetentionMove, n: nat, w': World)
    requires WorldInv(cfg, w) && w' == RetentionStep(cfg, w, step) && w' != w
    requires (step.RetentionDelete? && step.n == n) || (step.RetentionDeletes? && step.n == n)
    ensures WorldInv(cfg, w')
  {
    assert RetentionOk(w, n);
    var k := w.retentions[n].source;
    assert w'.doomed == w.doomed + {k};
    forall m | m in w.sweeps ensures SweepOk(w', m) { assert SweepOk(w, m); }
    forall m | m in w.retentions ensures RetentionOk(w', m) { assert RetentionOk(w, m); }
    DeleteFrame(cfg, w, w', k);
  }

  lemma RetentionFinalizeKeepsInv(cfg: SourceConfig, w: World, n: nat, w': World)
    requires WorldInv(cfg, w) && w' == RetentionStep(cfg, w, RetentionFinalize(n)) && w' != w
    ensures WorldInv(cfg, w')
  {
    var r := w.retentions[n];
    RetireKeepsInv(cfg.jobs, w.core, r.job);
    FinalizeUnfolds(cfg, w, n, w');
    FinalizeSources(cfg, w, n, w');
    FinalizeWorkers(cfg, w, n, w');
    forall i | Source(i) in w'.reservations ensures ReservationOk(w', i) { assert ReservationOk(w, i); }
    forall i | i in w'.idempotency ensures RecordOk(w', i) { assert RecordOk(w, i); }
  }

  lemma FinalizeUnfolds(cfg: SourceConfig, w: World, n: nat, w': World)
    requires w' == RetentionStep(cfg, w, RetentionFinalize(n)) && w' != w
    requires n in w.retentions && RetainedJob(w, w.retentions[n].job, w.retentions[n].source, w.retentions[n].tenant)
    ensures w' == w.(core := w'.core, sources := w.sources - {w.retentions[n].source})
    ensures w'.core.jobs == w.core.jobs - {w.retentions[n].job}
  {
  }

  lemma FinalizeSources(cfg: SourceConfig, w: World, n: nat, w': World)
    requires WorldInv(cfg, w) && n in w.retentions
    requires RetainedJob(w, w.retentions[n].job, w.retentions[n].source, w.retentions[n].tenant)
    requires w' == w.(core := w'.core, sources := w.sources - {w.retentions[n].source})
    requires w'.core.jobs == w.core.jobs - {w.retentions[n].job}
    ensures SubmissionsOk(cfg, w') && SourcesOk(w') && JobSourcesOk(w')
  {
    FinalizeJobSources(cfg, w, n, w');
    forall i | i in w'.submissions ensures SubmissionOk(cfg, w', i) { assert SubmissionOk(cfg, w, i); }
    forall i | i in w'.sources ensures SourceOk(w', i) { assert SourceOk(w, i); }
  }

  lemma FinalizeJobSources(cfg: SourceConfig, w: World, n: nat, w': World)
    requires WorldInv(cfg, w) && n in w.retentions
    requires RetainedJob(w, w.retentions[n].job, w.retentions[n].source, w.retentions[n].tenant)
    requires w'.sources == w.sources - {w.retentions[n].source}
    requires w'.core.jobs == w.core.jobs - {w.retentions[n].job}
    ensures JobSourcesOk(w')
  {
    SourceHasOneJob(cfg, w, w.retentions[n].job);
    forall j | j in w'.core.jobs ensures JobSourceOk(w', j) { assert JobSourceOk(w, j); }
  }

  lemma FinalizeWorkers(cfg: SourceConfig, w: World, n: nat, w': World)
    requires WorldInv(cfg, w) && n in w.retentions
    requires w' == w.(core := w'.core, sources := w.sources - {w.retentions[n].source})
    ensures WorkersOk(w')
  {
    forall i | i in w'.doomed ensures DoomedOk(w', i) { assert DoomedOk(w, i); }
    forall m | m in w'.sweeps ensures SweepOk(w', m) { assert SweepOk(w, m); }
    forall m | m in w'.retentions ensures RetentionOk(w', m) { assert RetentionOk(w, m); }
  }

  lemma ExpireKeepsInv(cfg: SourceConfig, w: World, keys: set<IdemKey>, w': World)
    requires WorldInv(cfg, w) && w' == RetentionStep(cfg, w, ExpireIdempotency(keys))
    ensures WorldInv(cfg, w')
  {
    forall i | i in w'.submissions ensures SubmissionOk(cfg, w', i) { assert SubmissionOk(cfg, w, i); }
    forall i | i in w'.sources ensures SourceOk(w', i) { assert SourceOk(w, i); }
    forall j | j in w'.core.jobs ensures JobSourceOk(w', j) { assert JobSourceOk(w, j); }
    WorkersFrame(w, w');
    forall i | Source(i) in w'.reservations ensures ReservationOk(w', i) { assert ReservationOk(w, i); }
    forall i | i in w'.idempotency ensures RecordOk(w', i) { assert RecordOk(w, i); }
  }

  lemma RetentionStepKeepsInv(cfg: SourceConfig, w: World, step: RetentionMove, w': World)
    requires WorldInv(cfg, w) && w' == RetentionStep(cfg, w, step)
    ensures WorldInv(cfg, w')
  {
    if w' != w {
      match step
      case RetentionClaim(j, lease) => RetentionClaimKeepsInv(cfg, w, j, lease, w');
      case RetentionDelete(n) => RetentionDeleteKeepsInv(cfg, w, step, n, w');
      case RetentionDeletes(n) => RetentionDeleteKeepsInv(cfg, w, step, n, w');
      case RetentionFailed(n, delay) => RetentionFailedKeepsInv(cfg, w, n, delay, w');
      case RetentionFinalize(n) => RetentionFinalizeKeepsInv(cfg, w, n, w');
      case ExpireIdempotency(keys) => ExpireKeepsInv(cfg, w, keys, w');
    }
  }

  lemma DeleteLandsKeepsInv(cfg: SourceConfig, w: World, id: SourceId, w': World)
    requires WorldInv(cfg, w) && id in w.doomed && w' == w.(store := w.store - {id})
    ensures WorldInv(cfg, w')
  {
    assert DoomedOk(w, id);
    assert id in w.sources ==> SourceOk(w, id);
    assert w'.doomed == w.doomed + {id};
    forall m | m in w.sweeps ensures SweepOk(w', m) { assert SweepOk(w, m); }
    forall m | m in w.retentions ensures RetentionOk(w', m) { assert RetentionOk(w, m); }
    DeleteFrame(cfg, w, w', id);
  }

  // -------------------------------------------------------------------- every run

  /** Time, the job tables and late deletes. */
  lemma OtherStepKeepsInv(cfg: SourceConfig, w: World, step: WorldStep, w': World)
    requires ValidConfig(cfg.jobs) && WorldInv(cfg, w) && w' == Sources.Apply(cfg, w, step)
    requires !step.Submitting? && !step.Sweeping? && !step.Retaining?
    ensures WorldInv(cfg, w')
  {
    if w' != w {
      match step
      case Tick(d) => TickKeepsInv(cfg, w, d, w');
      case CoreStep(inner) => CoreKeepsInv(cfg, w, inner, w');
      case DeleteLands(id) => DeleteLandsKeepsInv(cfg, w, id, w');
    }
  }

  lemma WorldStepKeepsInv(cfg: SourceConfig, w: World, step: WorldStep)
    requires ValidConfig(cfg.jobs) && WorldInv(cfg, w)
    ensures WorldInv(cfg, Sources.Apply(cfg, w, step))
  {
    match step
    case Submitting(move) => SubmissionStepKeepsInv(cfg, w, move, SubmissionStep(cfg, w, move));
    case Sweeping(move) => SweepStepKeepsInv(cfg, w, move, SweepStep(cfg, w, move));
    case Retaining(move) => RetentionStepKeepsInv(cfg, w, move, RetentionStep(cfg, w, move));
    case _ => OtherStepKeepsInv(cfg, w, step, Sources.Apply(cfg, w, step));
  }

  lemma {:induction false} WorldRunKeepsInv(cfg: SourceConfig, w: World, steps: seq<WorldStep>)
    requires ValidConfig(cfg.jobs) && WorldInv(cfg, w)
    ensures WorldInv(cfg, Sources.Run(cfg, w, steps))
    decreases |steps|
  {
    if steps != [] {
      WorldStepKeepsInv(cfg, w, steps[0]);
      WorldRunKeepsInv(cfg, Sources.Apply(cfg, w, steps[0]), steps[1..]);
    }
  }
}
