/**
 * Retention: nothing of a job goes before its retention period is over, and when it is, which jobs are taken.
 */
module SourceRetention {
  import opened Options
  import opened Events
  import opened JobModel
  import opened JobRuns
  import opened Sources
  import opened SourceInvariants
  import opened SourceSteps

  /** The job ended, and the retention period has passed since. */
  predicate OldEnough(cfg: SourceConfig, job: Job, now: Time)
  {
    Terminal(job.status) && job.completedAt.Some? && job.completedAt.value + cfg.retention <= now
  }

  predicate MarkedIsOld(cfg: SourceConfig, w: World, j: JobId)
    requires j in w.core.jobs
  {
    var id := w.core.jobs[j].source;
    id in w.sources && w.sources[id].markedAt.Some? ==> OldEnough(cfg, w.core.jobs[j], w.now)
  }

  ghost predicate OnlyOldIsMarked(cfg: SourceConfig, w: World)
  {
    forall j :: j in w.core.jobs ==> MarkedIsOld(cfg, w, j)
  }

  // ------------------------------------------------------------------ every step

  lemma CoreKeepsMarks(cfg: SourceConfig, w: World, step: Step, w': World)
    requires ValidConfig(cfg.jobs) && WorldInv(cfg, w) && OnlyOldIsMarked(cfg, w)
    requires w' == Sources.Apply(cfg, w, CoreStep(step))
    ensures OnlyOldIsMarked(cfg, w')
  {
    if !step.EnqueueStep? && !step.RetireStep? {
      StepAdvances(cfg.jobs, w.core, step);
      OtherStepsKeepJobs(cfg.jobs, w.core, step);
      forall j | j in w'.core.jobs ensures MarkedIsOld(cfg, w', j) {
        assert j < w.core.nextJobId && JobAdvances(w.core.jobs[j], w'.core.jobs[j]) && MarkedIsOld(cfg, w, j);
      }
    }
  }

  /** Steps that leave jobs and source rows alone. */
  lemma FrameKeepsMarks(cfg: SourceConfig, w: World, w': World)
    requires OnlyOldIsMarked(cfg, w) && w'.core == w.core && w'.sources == w.sources && w.now <= w'.now
    ensures OnlyOldIsMarked(cfg, w')
  {
    forall j | j in w'.core.jobs ensures MarkedIsOld(cfg, w', j) { assert MarkedIsOld(cfg, w, j); }
  }

  lemma SubmissionKeepsMarks(cfg: SourceConfig, w: World, step: SubmissionMove, w': World)
    requires WorldInv(cfg, w) && OnlyOldIsMarked(cfg, w) && w' == SubmissionStep(cfg, w, step)
    ensures OnlyOldIsMarked(cfg, w')
  {
    if step.CommitTx? && InPhase(w, step.id, Stored) {
      var r := SubmitTx(cfg, w, step.id, step.bundleReady, step.callbackUsable);
      if r.1.Accepted? {
        AcceptedPublishes(cfg, w, step.id, step.bundleReady, step.callbackUsable, w');
        PublishKeepsMarks(cfg, w, w', step.id);
      } else {
        assert r.0 == w;
        FrameKeepsMarks(cfg, w, w');
      }
    } else {
      SubmissionFrame(cfg, w, step, w');
      FrameKeepsMarks(cfg, w, w');
    }
  }

  lemma SubmissionFrame(cfg: SourceConfig, w: World, step: SubmissionMove, w': World)
    requires w' == SubmissionStep(cfg, w, step) && !(step.CommitTx? && InPhase(w, step.id, Stored))
    ensures w'.core == w.core && w'.sources == w.sources && w'.now == w.now
  {
    SubmissionKeepsCore(cfg, w, step);
    SubmissionKeepsRows(cfg, w, step);
    SubmissionKeepsTime(cfg, w, step);
  }

  lemma SubmissionKeepsCore(cfg: SourceConfig, w: World, step: SubmissionMove)
    requires !(step.CommitTx? && InPhase(w, step.id, Stored))
    ensures SubmissionStep(cfg, w, step).core == w.core
  {
  }

  lemma SubmissionKeepsRows(cfg: SourceConfig, w: World, step: SubmissionMove)
    requires !(step.CommitTx? && InPhase(w, step.id, Stored))
    ensures SubmissionStep(cfg, w, step).sources == w.sources
  {
  }

  lemma SubmissionKeepsTime(cfg: SourceConfig, w: World, step: SubmissionMove)
    ensures SubmissionStep(cfg, w, step).now == w.now
  {
  }

  lemma PublishKeepsMarks(cfg: SourceConfig, w: World, w': World, id: SourceId)
    requires WorldInv(cfg, w) && OnlyOldIsMarked(cfg, w) && InPhase(w, id, Stored) && Publishes(cfg, w, w', id)
    ensures OnlyOldIsMarked(cfg, w')
  {
    assert id in w.sources ==> SourceOk(w, id);
    forall j | j in w'.core.jobs ensures MarkedIsOld(cfg, w', j) {
      if j != w.core.nextJobId {
        assert JobSourceOk(w, j) && MarkedIsOld(cfg, w, j);
      }
    }
  }

  lemma SweepFrame(cfg: SourceConfig, w: World, step: SweepMove, w': World)
    requires w' == SweepStep(cfg, w, step)
    ensures w'.core == w.core && w'.sources == w.sources && w'.now == w.now
  {
    SweepKeepsCore(cfg, w, step);
    SweepKeepsRows(cfg, w, step);
  }

  lemma SweepKeepsCore(cfg: SourceConfig, w: World, step: SweepMove)
    ensures SweepStep(cfg, w, step).core == w.core
  {
  }

  lemma SweepKeepsRows(cfg: SourceConfig, w: World, step: SweepMove)
    ensures SweepStep(cfg, w, step).sources == w.sources && SweepStep(cfg, w, step).now == w.now
  {
  }

  /** The only step that marks a source looks at the end of its job. */
  lemma ClaimKeepsMarks(cfg: SourceConfig, w: World, j: JobId, lease: nat, w': World)
    requires WorldInv(cfg, w) && OnlyOldIsMarked(cfg, w) && w' == RetentionStep(cfg, w, RetentionClaim(j, lease))
    ensures OnlyOldIsMarked(cfg, w')
  {
    forall i | i in w'.core.jobs ensures MarkedIsOld(cfg, w', i) {
      assert MarkedIsOld(cfg, w, i);
      if w' != w && i != j {
        SourceHasOneJob(cfg, w, j);
      }
    }
  }

  lemma RetentionKeepsMarks(cfg: SourceConfig, w: World, step: RetentionMove, w': World)
    requires WorldInv(cfg, w) && OnlyOldIsMarked(cfg, w) && w' == RetentionStep(cfg, w, step)
    ensures OnlyOldIsMarked(cfg, w')
  {
    match step
    case RetentionClaim(j, lease) => ClaimKeepsMarks(cfg, w, j, lease, w');
    case RetentionFailed(_, _) => MarksStay(cfg, w, step, w');
    case RetentionFinalize(_) => MarksStay(cfg, w, step, w');
    case _ => FrameKeepsMarks(cfg, w, w');
  }

  lemma MarksStay(cfg: SourceConfig, w: World, step: RetentionMove, w': World)
    requires OnlyOldIsMarked(cfg, w) && w' == RetentionStep(cfg, w, step)
    requires step.RetentionFailed? || step.RetentionFinalize?
    ensures OnlyOldIsMarked(cfg, w')
  {
    forall j | j in w'.core.jobs ensures MarkedIsOld(cfg, w', j) { assert MarkedIsOld(cfg, w, j); }
  }

  lemma StepKeepsMarks(cfg: SourceConfig, w: World, step: WorldStep, w': World)
    requires ValidConfig(cfg.jobs) && WorldInv(cfg, w) && OnlyOldIsMarked(cfg, w) && w' == Sources.Apply(cfg, w, step)
    ensures OnlyOldIsMarked(cfg, w')
  {
    match step
    case CoreStep(inner) => CoreKeepsMarks(cfg, w, inner, w');
    case Submitting(move) => SubmissionKeepsMarks(cfg, w, move, w');
    case Retaining(move) => RetentionKeepsMarks(cfg, w, move, w');
    case Sweeping(move) =>
      SweepFrame(cfg, w, move, w');
      FrameKeepsMarks(cfg, w, w');
    case _ => FrameKeepsMarks(cfg, w, w');
  }

  lemma {:induction false} RunKeepsMarks(cfg: SourceConfig, w: World, steps: seq<WorldStep>)
    requires ValidConfig(cfg.jobs) && WorldInv(cfg, w) && OnlyOldIsMarked(cfg, w)
    ensures WorldInv(cfg, Sources.Run(cfg, w, steps)) && OnlyOldIsMarked(cfg, Sources.Run(cfg, w, steps))
    decreases |steps|
  {
    if steps != [] {
      StepKeepsMarks(cfg, w, steps[0], Sources.Apply(cfg, w, steps[0]));
      WorldStepKeepsInv(cfg, w, steps[0]);
      RunKeepsMarks(cfg, Sources.Apply(cfg, w, steps[0]), steps[1..]);
    }
  }

  // --------------------------------------------------------------- nothing too early

  /** The job, its source row without a mark, and its object, for which no delete was issued. */
  predicate Untouched(w: World, j: JobId)
    requires j in w.core.jobs
  {
    var id := w.core.jobs[j].source;
    id in w.sources && w.sources[id].markedAt == None && id in w.store && id !in w.doomed
  }

  /**
   * In every reachable state a job whose retention period is not over has its source row, unmarked, and its object, and
   * no delete of it is under way.
   */
  lemma KeptForRetention(cfg: SourceConfig, steps: seq<WorldStep>, j: JobId)
    requires ValidSourceConfig(cfg)
    ensures
      var w := Sources.Run(cfg, Start(), steps);
      j in w.core.jobs && !OldEnough(cfg, w.core.jobs[j], w.now) ==> Untouched(w, j)
  {
    StartInv(cfg);
    RunKeepsMarks(cfg, Start(), steps);
    var w := Sources.Run(cfg, Start(), steps);
    if j in w.core.jobs {
      var id := w.core.jobs[j].source;
      assert JobSourceOk(w, j) && SourceOk(w, id) && SubmissionOk(cfg, w, id) && MarkedIsOld(cfg, w, j);
    }
  }

  /** No live record names the job. */
  predicate Unrecorded(w: World, j: JobId, tenant: TenantId)
  {
    forall k :: k in w.idempotency && k.tenant == tenant && w.idempotency[k].job == j ==>
      w.idempotency[k].expiresAt <= w.now
  }

  /**
   * A step after any run deletes a job or a source row only if the retention period is over, the job's event is gone
   * and no live record names the job; job and source row go together.
   */
  lemma DeletedWhenOver(cfg: SourceConfig, steps: seq<WorldStep>, step: WorldStep, j: JobId)
    requires ValidSourceConfig(cfg)
    requires j in Sources.Run(cfg, Start(), steps).core.jobs
    ensures
      var w := Sources.Run(cfg, Start(), steps);
      KeptOrOver(cfg, w, Sources.Apply(cfg, w, step), j)
  {
    StartInv(cfg);
    RunKeepsMarks(cfg, Start(), steps);
    var w := Sources.Run(cfg, Start(), steps);
    StepDeletes(cfg, w, step, j, Sources.Apply(cfg, w, step));
  }

  /** Job and source row are both there, or both gone because the period was over and nothing needed them. */
  predicate KeptOrOver(cfg: SourceConfig, w: World, w': World, j: JobId)
    requires j in w.core.jobs
  {
    && (j in w'.core.jobs <==> w.core.jobs[j].source in w'.sources)
    && (j !in w'.core.jobs ==>
          && OldEnough(cfg, w.core.jobs[j], w.now) && j !in w.core.outbox
          && Unrecorded(w, j, w.core.jobs[j].tenant))
  }

  lemma StepDeletes(cfg: SourceConfig, w: World, step: WorldStep, j: JobId, w': World)
    requires ValidConfig(cfg.jobs) && WorldInv(cfg, w) && OnlyOldIsMarked(cfg, w) && j in w.core.jobs
    requires w' == Sources.Apply(cfg, w, step)
    ensures KeptOrOver(cfg, w, w', j)
  {
    assert JobSourceOk(w, j);
    match step
    case Retaining(move) => RetentionStepDeletes(cfg, w, move, j, w');
    case _ => OtherStepsDeleteNothing(cfg, w, step, j, w');
  }

  lemma OtherStepsDeleteNothing(cfg: SourceConfig, w: World, step: WorldStep, j: JobId, w': World)
    requires j in w.core.jobs && w.core.jobs[j].source in w.sources
    requires w' == Sources.Apply(cfg, w, step) && !step.Retaining?
    ensures j in w'.core.jobs && w.core.jobs[j].source in w'.sources
  {
    match step
    case CoreStep(inner) => CoreDeletesNothing(cfg, w, inner, j, w');
    case Submitting(move) => SubmissionDeletesNothing(cfg, w, move, w');
    case Sweeping(move) => SweepFrame(cfg, w, move, w');
    case Tick(_) =>
    case DeleteLands(_) =>
  }

  lemma CoreDeletesNothing(cfg: SourceConfig, w: World, step: Step, j: JobId, w': World)
    requires j in w.core.jobs && w' == Sources.Apply(cfg, w, CoreStep(step))
    ensures j in w'.core.jobs && w'.sources == w.sources
  {
    if !step.EnqueueStep? && !step.RetireStep? {
      OtherStepsKeepJobs(cfg.jobs, w.core, step);
    }
  }

  lemma SubmissionDeletesNothing(cfg: SourceConfig, w: World, step: SubmissionMove, w': World)
    requires w' == SubmissionStep(cfg, w, step)
    ensures w.core.jobs.Keys <= w'.core.jobs.Keys && w.sources.Keys <= w'.sources.Keys
  {
    if step.CommitTx? && InPhase(w, step.id, Stored) {
      var r := SubmitTx(cfg, w, step.id, step.bundleReady, step.callbackUsable);
      if r.1.Accepted? {
        AcceptedPublishes(cfg, w, step.id, step.bundleReady, step.callbackUsable, w');
      } else {
        assert r.0 == w;
      }
    } else {
      SubmissionFrame(cfg, w, step, w');
    }
  }

  lemma RetentionStepDeletes(cfg: SourceConfig, w: World, step: RetentionMove, j: JobId, w': World)
    requires WorldInv(cfg, w) && OnlyOldIsMarked(cfg, w) && j in w.core.jobs && w' == RetentionStep(cfg, w, step)
    ensures KeptOrOver(cfg, w, w', j)
  {
    assert JobSourceOk(w, j);
    if step.RetentionFinalize? && w' != w {
      FinalizeUnfolds(cfg, w, step.n, w');
      FinalizeNeedsMark(cfg, w, step.n, w');
      FinalizeDeletes(cfg, w, w.retentions[step.n], j, w');
    } else if !step.RetentionFinalize? {
      RetentionDeletesNothing(cfg, w, step, w');
    }
  }

  lemma FinalizeDeletes(cfg: SourceConfig, w: World, r: Retention, j: JobId, w': World)
    requires JobSourcesOk(w) && OnlyOldIsMarked(cfg, w) && j in w.core.jobs
    requires r.job in w.core.jobs && w.core.jobs[r.job].source == r.source && w.core.jobs[r.job].tenant == r.tenant
    requires r.source in w.sources && w.sources[r.source].markedAt.Some?
    requires r.job !in w.core.outbox && Unrecorded(w, r.job, r.tenant)
    requires w'.core.jobs == w.core.jobs - {r.job} && w'.sources == w.sources - {r.source}
    ensures KeptOrOver(cfg, w, w', j)
  {
    assert JobSourceOk(w, j) && MarkedIsOld(cfg, w, r.job);
  }

  lemma RetentionDeletesNothing(cfg: SourceConfig, w: World, step: RetentionMove, w': World)
    requires w' == RetentionStep(cfg, w, step) && !step.RetentionFinalize?
    ensures w'.core == w.core && w.sources.Keys <= w'.sources.Keys
  {
  }

  lemma FinalizeNeedsMark(cfg: SourceConfig, w: World, n: nat, w': World)
    requires w' == RetentionStep(cfg, w, RetentionFinalize(n)) && w' != w
    ensures n in w.retentions
    ensures
      var r := w.retentions[n];
      && r.job in w.core.jobs && w.core.jobs[r.job].source == r.source && w.core.jobs[r.job].tenant == r.tenant
      && r.source in w.sources && w.sources[r.source].markedAt.Some?
      && r.job !in w.core.outbox && Unrecorded(w, r.job, r.tenant)
  {
  }

  // ------------------------------------------------------------------ what is taken

  /** Nobody else is at work on the source, and a failed delete has waited long enough. */
  predicate Free(row: SourceRow, now: Time)
  {
    row.markedAt == None || (row.deleteNextAttemptAt <= now && row.deleteLeaseUntil <= now)
  }

  /**
   * A job is taken for retention exactly if its period is over, its event is gone, no live record names it and its
   * source is free. The source is then marked, and leased under a fresh token for as long as was asked.
   */
  lemma RetentionClaimAnswer(cfg: SourceConfig, w: World, j: JobId, lease: nat)
    requires WorldInv(cfg, w)
    ensures
      var w' := Sources.Apply(cfg, w, Retaining(RetentionClaim(j, lease)));
      if Ripe(cfg, w, j) && 0 < lease <= 15 * MINUTE then Taken(w, w', j, lease) else w' == w
  {
    if j in w.core.jobs {
      RipeIsRetainable(cfg, w, j);
    }
    RetainableIsTaken(cfg, w, j, lease, RetentionStep(cfg, w, RetentionClaim(j, lease)));
  }

  predicate Ripe(cfg: SourceConfig, w: World, j: JobId)
  {
    && j in w.core.jobs
    && var job := w.core.jobs[j];
    && OldEnough(cfg, job, w.now) && j !in w.core.outbox && Unrecorded(w, j, job.tenant)
    && job.source in w.sources && Free(w.sources[job.source], w.now)
  }

  lemma RipeIsRetainable(cfg: SourceConfig, w: World, j: JobId)
    requires WorldInv(cfg, w) && j in w.core.jobs
    ensures Retainable(cfg, w, j) <==> Ripe(cfg, w, j)
  {
    assert JobSourceOk(w, j);
    assert w.core.jobs[j].tenant in w.core.tenants;
    BlockedOnlyBy(cfg, w, j);
  }

  lemma RetainableIsTaken(cfg: SourceConfig, w: World, j: JobId, lease: nat, w': World)
    requires w' == RetentionStep(cfg, w, RetentionClaim(j, lease))
    ensures if Retainable(cfg, w, j) && 0 < lease <= 15 * MINUTE then Taken(w, w', j, lease) else w' == w
  {
  }

  predicate Taken(w: World, w': World, j: JobId, lease: nat)
  {
    && j in w.core.jobs && w.core.jobs[j].source in w.sources && w.core.jobs[j].source in w'.sources
    && var id := w.core.jobs[j].source;
    && var row := w.sources[id];
    && w' == w.(sources := w.sources[id := w'.sources[id]], retentions := w'.retentions, nextToken := w.nextToken + 1)
    && w'.retentions ==
         w.retentions[w.nextToken := Retention(j, id, w.core.jobs[j].tenant, RetentionClaimed)]
    && w'.sources[id] == row.(
         markedAt := if row.markedAt.Some? then row.markedAt else Some(w.now), deleteToken := Some(w.nextToken),
         deleteLeaseUntil := w.now + lease, deleteNextAttemptAt := w.now,
         deleteAttemptCount := row.deleteAttemptCount + 1)
  }

  /** The worker's token is on the source, and its lease has not run out. */
  predicate HoldsSource(w: World, n: nat)
  {
    && n in w.retentions && w.retentions[n].source in w.sources
    && var row := w.sources[w.retentions[n].source];
    && row.deleteToken == Some(n) && row.markedAt.Some? && w.now < row.deleteLeaseUntil
  }

  /** The ended job that the worker was given is still there. */
  predicate HasItsJob(w: World, r: Retention)
  {
    && r.job in w.core.jobs && w.core.jobs[r.job].source == r.source && w.core.jobs[r.job].tenant == r.tenant
    && Terminal(w.core.jobs[r.job].status)
  }

  /**
   * After its delete a worker removes job, attempts and source row exactly if it still holds the source and nothing new
   * needs the job.
   */
  lemma FinalizeAnswer(cfg: SourceConfig, w: World, n: nat)
    requires WorldInv(cfg, w) && n in w.retentions && w.retentions[n].phase == RetentionDeleted
    ensures
      var w' := Sources.Apply(cfg, w, Retaining(RetentionFinalize(n)));
      var r := w.retentions[n];
      if && HoldsSource(w, n) && HasItsJob(w, r) && r.job !in w.core.outbox && Unrecorded(w, r.job, r.tenant)
      then
        && w' == w.(core := w'.core, sources := w.sources - {r.source})
        && w'.core.jobs == w.core.jobs - {r.job} && w'.core.ledger == w.core.ledger
        && (forall k :: k in w'.core.attempts <==> k in w.core.attempts && k.job != r.job)
      else w' == w
  {
    var r := w.retentions[n];
    FenceIsHeld(cfg, w, n);
    if HasItsJob(w, r) {
      BlockedOnlyBy(cfg, w, r.job);
    }
    FinalizeDecides(cfg, w, n, RetentionStep(cfg, w, RetentionFinalize(n)));
  }

  lemma FenceIsHeld(cfg: SourceConfig, w: World, n: nat)
    requires WorldInv(cfg, w) && n in w.retentions
    ensures RetentionFence(w, n) <==> HoldsSource(w, n) && HasItsJob(w, w.retentions[n])
  {
    var r := w.retentions[n];
    if HasItsJob(w, r) {
      assert JobSourceOk(w, r.job) && r.tenant in w.core.tenants;
    }
    assert r.source in w.sources ==> SourceOk(w, r.source);
  }

  lemma FinalizeDecides(cfg: SourceConfig, w: World, n: nat, w': World)
    requires n in w.retentions && w.retentions[n].phase == RetentionDeleted
    requires w' == RetentionStep(cfg, w, RetentionFinalize(n))
    ensures
      var r := w.retentions[n];
      if RetentionFence(w, n) && w.sources[r.source].markedAt.Some? && !Blocked(w, r.job, r.source, r.tenant)
      then
        && w' == w.(core := w'.core, sources := w.sources - {r.source})
        && w'.core.jobs == w.core.jobs - {r.job} && w'.core.ledger == w.core.ledger
        && (forall k :: k in w'.core.attempts <==> k in w.core.attempts && k.job != r.job)
      else w' == w
  {
  }

  /** A failed delete ends the lease, and the source is free again after the delay. */
  lemma FailedDeleteAnswer(cfg: SourceConfig, w: World, n: nat, delay: nat)
    requires WorldInv(cfg, w) && n in w.retentions
    ensures
      var w' := Sources.Apply(cfg, w, Retaining(RetentionFailed(n, delay)));
      var id := w.retentions[n].source;
      if HoldsSource(w, n) && HasItsJob(w, w.retentions[n]) && 0 < delay <= HOUR
      then w' == w.(sources := w.sources[id :=
             w.sources[id].(deleteLeaseUntil := w.now, deleteNextAttemptAt := w.now + delay)])
      else w' == w
  {
    FenceIsHeld(cfg, w, n);
    FailedDeleteDecides(cfg, w, n, delay, RetentionStep(cfg, w, RetentionFailed(n, delay)));
  }

  lemma FailedDeleteDecides(cfg: SourceConfig, w: World, n: nat, delay: nat, w': World)
    requires n in w.retentions && w' == RetentionStep(cfg, w, RetentionFailed(n, delay))
    ensures
      var id := w.retentions[n].source;
      if RetentionFence(w, n) && 0 < delay <= HOUR
      then w' == w.(sources := w.sources[id :=
             w.sources[id].(deleteLeaseUntil := w.now, deleteNextAttemptAt := w.now + delay)])
      else w' == w
  {
  }

  /** A source has one job, so only events and live records block. */
  lemma BlockedOnlyBy(cfg: SourceConfig, w: World, j: JobId)
    requires WorldInv(cfg, w) && j in w.core.jobs
    ensures
      var job := w.core.jobs[j];
      Blocked(w, j, job.source, job.tenant) <==> j in w.core.outbox || !Unrecorded(w, j, job.tenant)
  {
    SourceHasOneJob(cfg, w, j);
  }

  // ------------------------------------------------------------------ from end to end

  /** A worker that is not disturbed removes a ripe job with its source row and its object. */
  lemma RipeIsRemoved(
    cfg: SourceConfig, w: World, j: JobId, lease: nat, w1: World, w2: World, w3: World, w4: World)
    requires WorldInv(cfg, w) && Ripe(cfg, w, j) && 0 < lease <= 15 * MINUTE
    requires w1 == RetentionStep(cfg, w, RetentionClaim(j, lease))
    requires w2 == RetentionStep(cfg, w1, RetentionDelete(w.nextToken))
    requires w3 == RetentionStep(cfg, w2, RetentionDeletes(w.nextToken))
    requires w4 == RetentionStep(cfg, w3, RetentionFinalize(w.nextToken))
    ensures
      var id := w.core.jobs[j].source;
      && w4.core.jobs == w.core.jobs - {j} && w4.sources == w.sources - {id} && w4.store == w.store - {id}
  {
    RipeIsTaken(cfg, w, j, lease, w1);
    InvUntilDeleted(cfg, w, j, lease, w.nextToken, w1, w2, w3);
    DeleteRuns(cfg, w1, w.nextToken, w2, w3);
    ReadyToFinalize(cfg, w, j, lease, w1, w3);
    FinalizeRemoves(cfg, w3, w.nextToken, w4);
  }

  lemma RipeIsTaken(cfg: SourceConfig, w: World, j: JobId, lease: nat, w1: World)
    requires WorldInv(cfg, w) && Ripe(cfg, w, j) && 0 < lease <= 15 * MINUTE
    requires w1 == RetentionStep(cfg, w, RetentionClaim(j, lease))
    ensures Taken(w, w1, j, lease)
  {
    RipeIsRetainable(cfg, w, j);
    RetainableIsTaken(cfg, w, j, lease, w1);
  }

  lemma InvUntilDeleted(
    cfg: SourceConfig, w: World, j: JobId, lease: nat, n: nat, w1: World, w2: World, w3: World)
    requires WorldInv(cfg, w) && w1 == RetentionStep(cfg, w, RetentionClaim(j, lease))
    requires w2 == RetentionStep(cfg, w1, RetentionDelete(n)) && w3 == RetentionStep(cfg, w2, RetentionDeletes(n))
    ensures WorldInv(cfg, w3)
  {
    RetentionStepKeepsInv(cfg, w, RetentionClaim(j, lease), w1);
    RetentionStepKeepsInv(cfg, w1, RetentionDelete(n), w2);
    RetentionStepKeepsInv(cfg, w2, RetentionDeletes(n), w3);
  }

  lemma FinalizeRemoves(cfg: SourceConfig, w: World, n: nat, w': World)
    requires WorldInv(cfg, w) && HoldsSource(w, n) && w.retentions[n].phase == RetentionDeleted
    requires
      var r := w.retentions[n];
      HasItsJob(w, r) && r.job !in w.core.outbox && Unrecorded(w, r.job, r.tenant)
    requires w' == RetentionStep(cfg, w, RetentionFinalize(n))
    ensures
      var r := w.retentions[n];
      w'.core.jobs == w.core.jobs - {r.job} && w'.sources == w.sources - {r.source} && w'.store == w.store
  {
    FenceIsHeld(cfg, w, n);
    BlockedOnlyBy(cfg, w, w.retentions[n].job);
    FinalizeDecides(cfg, w, n, w');
  }

  lemma ReadyToFinalize(cfg: SourceConfig, w: World, j: JobId, lease: nat, w1: World, w3: World)
    requires Ripe(cfg, w, j) && lease > 0 && Taken(w, w1, j, lease)
    requires
      var r := w1.retentions[w.nextToken];
      w3 == w1.(store := w1.store - {r.source}, doomed := w1.doomed + {r.source},
                retentions := w1.retentions[w.nextToken := r.(phase := RetentionDeleted)])
    ensures
      var n := w.nextToken;
      var id := w.core.jobs[j].source;
      && HoldsSource(w3, n) && HasItsJob(w3, w3.retentions[n]) && Unrecorded(w3, j, w3.retentions[n].tenant)
      && w3.retentions[n].job == j && w3.retentions[n].source == id && w3.retentions[n].phase == RetentionDeleted
      && w3.core == w.core && j !in w3.core.outbox && w3.store == w.store - {id}
      && w3.sources - {id} == w.sources - {id}
  {
  }

  lemma DeleteRuns(cfg: SourceConfig, w: World, n: nat, w1: World, w2: World)
    requires n in w.retentions && w.retentions[n].phase == RetentionClaimed
    requires w1 == RetentionStep(cfg, w, RetentionDelete(n)) && w2 == RetentionStep(cfg, w1, RetentionDeletes(n))
    ensures w2 == w.(store := w.store - {w.retentions[n].source}, doomed := w.doomed + {w.retentions[n].source},
                     retentions := w.retentions[n := w.retentions[n].(phase := RetentionDeleted)])
  {
  }
}
