/** What submission and retention promise in every run: live jobs keep their source, and a retried request its job. */
module SourceTheorems {
  import opened Options
  import opened Events
  import opened JobModel
  import opened Sources
  import opened SourceInvariants
  import opened SourceSteps

  /** In every reachable state the source object of every QUEUED or RUNNING job is in the store. */
  lemma LiveJobsHaveTheirSource(cfg: SourceConfig, steps: seq<WorldStep>, j: JobId)
    requires ValidSourceConfig(cfg)
    ensures
      var w := Sources.Run(cfg, Start(), steps);
      j in w.core.jobs && !Terminal(w.core.jobs[j].status) ==>
        w.core.jobs[j].source in w.sources && w.core.jobs[j].source in w.store && w.core.jobs[j].source !in w.doomed
  {
    StartInv(cfg);
    WorldRunKeepsInv(cfg, Start(), steps);
    var w := Sources.Run(cfg, Start(), steps);
    if j in w.core.jobs && !Terminal(w.core.jobs[j].status) {
      var k := w.core.jobs[j].source;
      assert JobSourceOk(w, j) && SourceOk(w, k) && SubmissionOk(cfg, w, k);
    }
  }

  // -------------------------------------------------------------- idempotency

  /** Only two steps touch the records: an accepted submission, and the expiry batch. */
  lemma RetentionStepKeepsRecord(cfg: SourceConfig, w: World, step: RetentionMove, k: IdemKey)
    requires k in w.idempotency && w.now < w.idempotency[k].expiresAt
    ensures
      var w1 := RetentionStep(cfg, w, step);
      w1.now == w.now && k in w1.idempotency && w1.idempotency[k] == w.idempotency[k]
  {
  }

  lemma SweepStepKeepsRecords(cfg: SourceConfig, w: World, step: SweepMove)
    ensures SweepStep(cfg, w, step).now == w.now && SweepStep(cfg, w, step).idempotency == w.idempotency
  {
  }

  lemma SubmissionStepKeepsRecord(cfg: SourceConfig, w: World, step: SubmissionMove, k: IdemKey)
    requires k in w.idempotency && w.now < w.idempotency[k].expiresAt
    ensures
      var w' := SubmissionStep(cfg, w, step);
      w'.now == w.now && k in w'.idempotency && w'.idempotency[k] == w.idempotency[k]
  {
    if step.CommitTx? && InPhase(w, step.id, Stored) {
      var r := SubmitTx(cfg, w, step.id, step.bundleReady, step.callbackUsable);
      if r.1.Accepted? {
        AcceptedPublishes(cfg, w, step.id, step.bundleReady, step.callbackUsable, SubmissionStep(cfg, w, step));
      } else {
        assert r.0 == w;
      }
    }
  }

  /** A record stays as it is until it expires. */
  lemma StepKeepsRecord(cfg: SourceConfig, w: World, step: WorldStep, k: IdemKey)
    requires k in w.idempotency
    ensures
      var w' := Sources.Apply(cfg, w, step);
      && w.now <= w'.now
      && (w'.now < w.idempotency[k].expiresAt ==> k in w'.idempotency && w'.idempotency[k] == w.idempotency[k])
  {
    StepKeepsClock(cfg, w, step);
    if w.now < w.idempotency[k].expiresAt {
      match step
      case Submitting(move) => SubmissionStepKeepsRecord(cfg, w, move, k);
      case Sweeping(move) => SweepStepKeepsRecords(cfg, w, move);
      case Retaining(move) => RetentionStepKeepsRecord(cfg, w, move, k);
      case _ =>
    }
  }

  lemma {:induction false} RunKeepsRecord(cfg: SourceConfig, w: World, steps: seq<WorldStep>, k: IdemKey)
    requires ValidConfig(cfg.jobs) && WorldInv(cfg, w) && k in w.idempotency
    ensures
      var w' := Sources.Run(cfg, w, steps);
      && w.now <= w'.now
      && (w'.now < w.idempotency[k].expiresAt ==> k in w'.idempotency && w'.idempotency[k] == w.idempotency[k])
    decreases |steps|
  {
    if steps != [] {
      var w1 := Sources.Apply(cfg, w, steps[0]);
      StepKeepsRecord(cfg, w, steps[0], k);
      WorldStepKeepsInv(cfg, w, steps[0]);
      if k in w1.idempotency {
        RunKeepsRecord(cfg, w1, steps[1..], k);
      } else {
        RunKeepsClock(cfg, w1, steps[1..]);
      }
    }
  }

  lemma {:induction false} RunKeepsClock(cfg: SourceConfig, w: World, steps: seq<WorldStep>)
    ensures w.now <= Sources.Run(cfg, w, steps).now
    decreases |steps|
  {
    if steps != [] {
      StepKeepsClock(cfg, w, steps[0]);
      RunKeepsClock(cfg, Sources.Apply(cfg, w, steps[0]), steps[1..]);
    }
  }

  lemma StepKeepsClock(cfg: SourceConfig, w: World, step: WorldStep)
    ensures w.now <= Sources.Apply(cfg, w, step).now
  {
    match step
    case Submitting(move) => SubmissionKeepsClock(cfg, w, move);
    case Sweeping(move) => SweepStepKeepsRecords(cfg, w, move);
    case Retaining(move) => RetentionKeepsClock(cfg, w, move);
    case _ =>
  }

  lemma RetentionKeepsClock(cfg: SourceConfig, w: World, step: RetentionMove)
    ensures RetentionStep(cfg, w, step).now == w.now
  {
  }

  lemma SubmissionKeepsClock(cfg: SourceConfig, w: World, step: SubmissionMove)
    ensures SubmissionStep(cfg, w, step).now == w.now
  {
  }

  /**
   * Until its record expires, whatever runs in between, a retried request gets the job it was given first, a different
   * request under the same key conflicts, and no submission transaction can accept a second job under that key.
   */
  lemma ReplayReturnsTheJob(
    cfg: SourceConfig, w: World, steps: seq<WorldStep>, k: IdemKey, hash: RequestHash, id: SourceId, bundleReady: bool,
    callbackUsable: bool)
    requires ValidConfig(cfg.jobs) && WorldInv(cfg, w) && k in w.idempotency
    requires Sources.Run(cfg, w, steps).now < w.idempotency[k].expiresAt
    ensures
      var w' := Sources.Run(cfg, w, steps);
      var record := w.idempotency[k];
      && record.job in w'.core.jobs && w'.core.jobs[record.job].tenant == k.tenant
      && w'.core.jobs[record.job].requestHash == record.hash
      && FindReplay(w', k.tenant, k.digest, hash) == (if hash == record.hash then Replayed(record.job) else Conflict)
      && (id in w'.submissions && w'.submissions[id].tenant == k.tenant && w'.submissions[id].digest == k.digest ==>
            var r := SubmitTx(cfg, w', id, bundleReady, callbackUsable);
            && r.0 == w'
            && (|| r.1 == SubmitUnavailable
                || r.1 == if w'.submissions[id].hash == record.hash then ReplayedJob(record.job) else SubmitConflict))
  {
    RunKeepsRecord(cfg, w, steps, k);
    WorldRunKeepsInv(cfg, w, steps);
    var w' := Sources.Run(cfg, w, steps);
    assert RecordOk(w', k);
    LiveRecordIsReplayed(cfg, w', k, hash);
    if id in w'.submissions && w'.submissions[id].tenant == k.tenant && w'.submissions[id].digest == k.digest {
      LiveRecordBlocks(cfg, w', k, id, bundleReady, callbackUsable);
    }
  }

  lemma LiveRecordIsReplayed(cfg: SourceConfig, w: World, k: IdemKey, hash: RequestHash)
    requires k in w.idempotency && w.now < w.idempotency[k].expiresAt
    ensures FindReplay(w, k.tenant, k.digest,
                       hash) == (if hash == w.idempotency[k].hash then Replayed(w.idempotency[k].job) else Conflict)
  {
  }

  lemma LiveRecordBlocks(cfg: SourceConfig, w: World, k: IdemKey, id: SourceId, bundleReady: bool, callbackUsable: bool)
    requires k in w.idempotency && w.now < w.idempotency[k].expiresAt && w.idempotency[k].job in w.core.jobs
    requires id in w.submissions && w.submissions[id].tenant == k.tenant && w.submissions[id].digest == k.digest
    ensures
      var r := SubmitTx(cfg, w, id, bundleReady, callbackUsable);
      var record := w.idempotency[k];
      && r.0 == w
      && (|| r.1 == SubmitUnavailable
          || r.1 == if w.submissions[id].hash == record.hash then ReplayedJob(record.job) else SubmitConflict)
  {
  }

  /** An accepted submission creates one new job, and the record that replays it. */
  lemma AcceptanceIsRecorded(cfg: SourceConfig, w: World, id: SourceId, bundleReady: bool, callbackUsable: bool)
    requires ValidSourceConfig(cfg) && WorldInv(cfg, w) && id in w.submissions
    requires SubmitTx(cfg, w, id, bundleReady, callbackUsable).1.Accepted?
    ensures
      var r := SubmitTx(cfg, w, id, bundleReady, callbackUsable);
      var sub := w.submissions[id];
      var k := IdemKey(sub.tenant, sub.digest);
      && r.1.job !in w.core.jobs && r.1.job in r.0.core.jobs
      && r.0.core.jobs == w.core.jobs[r.1.job := r.0.core.jobs[r.1.job]]
      && r.0.core.jobs[r.1.job].status == Queued && r.0.core.jobs[r.1.job].source == id
      && k in r.0.idempotency && r.0.idempotency[k] == IdemRecord(sub.hash, r.1.job, w.now + cfg.idempotencyTtl)
      && FindReplay(r.0, sub.tenant, sub.digest, sub.hash) == Replayed(r.1.job)
      && FindReplay(w, sub.tenant, sub.digest, sub.hash) == Fresh
  {
    AcceptedPublishes(cfg, w, id, bundleReady, callbackUsable,
                      Move(SubmitTx(cfg, w, id, bundleReady, callbackUsable).0, id, Committed));
    assert w.core.nextJobId in w.core.jobs ==> w.core.nextJobId < w.core.nextJobId;
  }

  // ------------------------------------------------------------------- fencing

  /** A sweeper's claim is remembered, for the same key. */
  lemma StepKeepsSweep(cfg: SourceConfig, w: World, step: WorldStep, n: nat)
    requires n in w.sweeps && n < w.nextToken
    ensures
      var w' := Sources.Apply(cfg, w, step);
      n in w'.sweeps && w'.sweeps[n].key == w.sweeps[n].key
  {
    match step
    case Submitting(move) => SubmissionKeepsSweeps(cfg, w, move);
    case Sweeping(move) => SweepStepKeepsSweep(cfg, w, move, n);
    case Retaining(move) => RetentionKeepsSweeps(cfg, w, move);
    case _ =>
  }

  lemma SubmissionKeepsSweeps(cfg: SourceConfig, w: World, step: SubmissionMove)
    ensures SubmissionStep(cfg, w, step).sweeps == w.sweeps
  {
  }

  lemma RetentionKeepsSweeps(cfg: SourceConfig, w: World, step: RetentionMove)
    ensures RetentionStep(cfg, w, step).sweeps == w.sweeps
  {
  }

  lemma SweepStepKeepsSweep(cfg: SourceConfig, w: World, step: SweepMove, n: nat)
    requires n in w.sweeps && n < w.nextToken
    ensures
      var w' := SweepStep(cfg, w, step);
      n in w'.sweeps && w'.sweeps[n].key == w.sweeps[n].key
  {
  }

  lemma {:induction false} RunKeepsSweep(cfg: SourceConfig, w: World, steps: seq<WorldStep>, n: nat)
    requires ValidConfig(cfg.jobs) && WorldInv(cfg, w) && n in w.sweeps
    ensures
      var w' := Sources.Run(cfg, w, steps);
      WorldInv(cfg, w') && n in w'.sweeps && w'.sweeps[n].key == w.sweeps[n].key
    decreases |steps|
  {
    if steps != [] {
      assert SweepOk(w, n);
      StepKeepsSweep(cfg, w, steps[0], n);
      WorldStepKeepsInv(cfg, w, steps[0]);
      RunKeepsSweep(cfg, Sources.Apply(cfg, w, steps[0]), steps[1..], n);
    }
  }

  /**
   * Once a sweeper has taken the reservation, whatever runs afterwards, the submission never publishes its source: its
   * transaction is refused, and no source row and no job ever names it.
   */
  lemma SweptSubmissionCannotCommit(
    cfg: SourceConfig, w: World, steps: seq<WorldStep>, n: nat, bundleReady: bool, callbackUsable: bool)
    requires ValidConfig(cfg.jobs) && WorldInv(cfg, w) && n in w.sweeps && w.sweeps[n].key.Source?
    ensures
      var w' := Sources.Run(cfg, w, steps);
      var id := w.sweeps[n].key.id;
      && id in w'.submissions && w'.submissions[id].phase != Committed && id !in w'.sources
      && (forall j :: j in w'.core.jobs ==> w'.core.jobs[j].source != id)
      && (InPhase(w', id, Stored) ==> SubmitTx(cfg, w', id, bundleReady, callbackUsable) == (w', SubmitUnavailable))
  {
    RunKeepsSweep(cfg, w, steps, n);
    var w' := Sources.Run(cfg, w, steps);
    var id := w.sweeps[n].key.id;
    assert SweepOk(w', n);
    assert id in w'.sources ==> SourceOk(w', id);
    forall j | j in w'.core.jobs ensures w'.core.jobs[j].source != id {
      assert JobSourceOk(w', j);
    }
  }

  /** The row of a retention worker is deleted, has another token, or its lease has run out. */
  predicate StaleRetention(w: World, n: nat)
    requires n in w.retentions
  {
    var k := w.retentions[n].source;
    k !in w.sources || w.sources[k].deleteToken != Some(n) || w.sources[k].deleteLeaseUntil <= w.now
  }

  /** Tokens are fresh and no lease is extended, so what is stale stays stale. */
  lemma StepKeepsStale(cfg: SourceConfig, w: World, step: WorldStep, n: nat)
    requires n in w.retentions && n < w.nextToken && StaleRetention(w, n)
    ensures
      var w' := Sources.Apply(cfg, w, step);
      n in w'.retentions && w'.retentions[n].source == w.retentions[n].source && StaleRetention(w', n)
  {
    match step
    case Submitting(move) => SubmissionKeepsStale(cfg, w, move, n);
    case Retaining(move) => RetentionKeepsStale(cfg, w, move, n);
    case Sweeping(move) => SweepKeepsSources(cfg, w, move);
    case _ =>
  }

  lemma SweepKeepsSources(cfg: SourceConfig, w: World, step: SweepMove)
    ensures
      var w' := SweepStep(cfg, w, step);
      w'.retentions == w.retentions && w'.now == w.now && w'.sources == w.sources
  {
  }

  lemma SubmissionKeepsStale(cfg: SourceConfig, w: World, step: SubmissionMove, n: nat)
    requires n in w.retentions && StaleRetention(w, n)
    ensures
      var w' := SubmissionStep(cfg, w, step);
      w'.retentions == w.retentions && StaleRetention(w', n)
  {
    if step.CommitTx? {
      CommitAddsSource(cfg, w, step, SubmissionStep(cfg, w, step));
    } else {
      SubmissionKeepsClock(cfg, w, step);
      SubmissionKeepsRetentions(cfg, w, step);
      PhaseKeepsSources(cfg, w, step);
    }
  }

  lemma SubmissionKeepsRetentions(cfg: SourceConfig, w: World, step: SubmissionMove)
    ensures SubmissionStep(cfg, w, step).retentions == w.retentions
  {
  }

  lemma PhaseKeepsSources(cfg: SourceConfig, w: World, step: SubmissionMove)
    requires !step.CommitTx?
    ensures SubmissionStep(cfg, w, step).sources == w.sources
  {
  }

  /** A submission adds a source row that no retention worker has claimed. */
  lemma CommitAddsSource(cfg: SourceConfig, w: World, step: SubmissionMove, w': World)
    requires step.CommitTx? && w' == SubmissionStep(cfg, w, step)
    ensures w'.retentions == w.retentions && w'.now == w.now
    ensures
      || w'.sources == w.sources
      || (&& step.id in w'.sources && w'.sources[step.id].deleteToken == None
          && w'.sources == w.sources[step.id := w'.sources[step.id]])
  {
    if InPhase(w, step.id, Stored) {
      var r := SubmitTx(cfg, w, step.id, step.bundleReady, step.callbackUsable);
      if r.1.Accepted? {
        AcceptedPublishes(cfg, w, step.id, step.bundleReady, step.callbackUsable, w');
      } else {
        assert r.0 == w;
      }
    }
  }

  lemma RetentionKeepsStale(cfg: SourceConfig, w: World, step: RetentionMove, n: nat)
    requires n in w.retentions && n < w.nextToken && StaleRetention(w, n)
    ensures
      var w' := RetentionStep(cfg, w, step);
      n in w'.retentions && w'.retentions[n].source == w.retentions[n].source && StaleRetention(w', n)
  {
  }

  lemma {:induction false} RunKeepsStale(cfg: SourceConfig, w: World, steps: seq<WorldStep>, n: nat)
    requires ValidConfig(cfg.jobs) && WorldInv(cfg, w) && n in w.retentions && StaleRetention(w, n)
    ensures
      var w' := Sources.Run(cfg, w, steps);
      n in w'.retentions && w'.retentions[n].source == w.retentions[n].source && StaleRetention(w', n)
    decreases |steps|
  {
    if steps != [] {
      assert RetentionOk(w, n);
      StepKeepsStale(cfg, w, steps[0], n);
      WorldStepKeepsInv(cfg, w, steps[0]);
      RunKeepsStale(cfg, Sources.Apply(cfg, w, steps[0]), steps[1..], n);
    }
  }

  /**
   * A retention worker whose token was replaced, whose row was deleted or whose lease ran out neither records a failure
   * nor finalizes, whatever runs afterwards.
   */
  lemma StaleRetentionIsPowerless(cfg: SourceConfig, w: World, steps: seq<WorldStep>, n: nat, delay: nat)
    requires ValidConfig(cfg.jobs) && WorldInv(cfg, w) && n in w.retentions && StaleRetention(w, n)
    ensures
      var w' := Sources.Run(cfg, w, steps);
      && Sources.Apply(cfg, w', Retaining(RetentionFailed(n, delay))) == w'
      && Sources.Apply(cfg, w', Retaining(RetentionFinalize(n))) == w'
  {
    RunKeepsStale(cfg, w, steps, n);
  }
}
