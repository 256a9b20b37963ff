/**
 * No orphans: every stored object is referenced by a source row or covered by a reservation row, exactly when a
 * submission cannot outlive the time after which the sweeper may take its reservation.
 */
module SourceCoverage {
  import opened Options
  import opened JobModel
  import opened Sources
  import opened SourceInvariants
  import opened SourceSteps
  import opened SourceCoordination

  /** The sweeper waits for the admission lease and for its minimum age, whichever is longer. */
  predicate SweeperOutlivesSubmission(cfg: SourceConfig)
  {
    cfg.submitTimeout <= ADMISSION_LEASE || cfg.submitTimeout <= cfg.minimumAge
  }

  ghost predicate StoreCovered(w: World)
  {
    forall id :: id in w.store ==> id in w.sources || Source(id) in w.reservations
  }

  /** As long as a write can still land, its reservation is there. */
  predicate PutCovered(cfg: SourceConfig, w: World, id: SourceId)
    requires id in w.submissions
  {
    var sub := w.submissions[id];
    (sub.put.InFlight? || sub.phase == Reserved) && w.now < sub.startedAt + cfg.submitTimeout ==>
      Source(id) in w.reservations
  }

  /** A swept submission is out of time, and once the sweeper's delete succeeded the object stays away. */
  predicate SweepLate(cfg: SourceConfig, w: World, n: nat)
    requires n in w.sweeps
  {
    var sweep := w.sweeps[n];
    sweep.key.Source? && sweep.key.id in w.submissions ==>
      && w.submissions[sweep.key.id].startedAt + cfg.submitTimeout <= w.now
      && (sweep.phase == SweepDeleted ==> sweep.key.id !in w.store)
  }

  ghost predicate Covered(cfg: SourceConfig, w: World)
  {
    && StoreCovered(w)
    && (forall id :: id in w.submissions ==> PutCovered(cfg, w, id))
    && (forall n :: n in w.sweeps ==> SweepLate(cfg, w, n))
  }

  // -------------------------------------------------------------------- steps

  /** A submission's own change keeps coverage if its own object stays covered and lands in time. */
  lemma OwnChangeCovers(cfg: SourceConfig, w: World, w': World, id: SourceId)
    requires Covered(cfg, w) && OwnChange(w, w', id)
    requires id in w'.store ==> id in w'.sources || Source(id) in w'.reservations
    requires PutCovered(cfg, w', id)
    requires forall i :: i != id ==> SameReservation(w, w', Source(i))
    requires if id in w.submissions
             then w'.submissions[id].startedAt == w.submissions[id].startedAt
             else forall n :: n in w.sweeps ==> w.sweeps[n].key != Source(id)
    requires id in w'.store && id !in w.store ==> w.now < w'.submissions[id].startedAt + cfg.submitTimeout
    ensures Covered(cfg, w')
  {
    forall i | i in w'.store ensures i in w'.sources || Source(i) in w'.reservations {
      if i != id {
        assert i in w'.store - {id} && SameReservation(w, w', Source(i));
      }
    }
    forall i | i in w'.submissions ensures PutCovered(cfg, w', i) {
      if i != id {
        assert PutCovered(cfg, w, i) && SameReservation(w, w', Source(i));
      }
    }
    forall n | n in w'.sweeps ensures SweepLate(cfg, w', n) {
      assert SweepLate(cfg, w, n);
      if w.sweeps[n].key.Source? {
        var k := w.sweeps[n].key.id;
        assert k != id ==> (k in w.store - {id} <==> k in w'.store - {id});
      }
    }
  }

  lemma BeginCovers(cfg: SourceConfig, w: World, step: SubmissionMove, w': World)
    requires WorldInv(cfg, w) && Covered(cfg, w) && w' == SubmissionStep(cfg, w, step) && step.Begin?
    ensures Covered(cfg, w')
  {
    var id := w.nextSource;
    assert id in w.submissions ==> SubmissionOk(cfg, w, id);
    assert id in w.store ==> id in w.submissions;
    forall n | n in w.sweeps ensures w.sweeps[n].key != Source(id) { assert SweepOk(w, n); }
    OwnChangeCovers(cfg, w, w', id);
  }

  lemma PhaseCovers(cfg: SourceConfig, w: World, step: SubmissionMove, id: SourceId, w': World)
    requires WorldInv(cfg, w) && Covered(cfg, w) && w' == SubmissionStep(cfg, w, step) && w' != w
    requires (step.Coordinate? && step.id == id) || (step.Recheck? && step.id == id)
          || (step.Reserve? && step.id == id) || (step.StartPut? && step.id == id)
          || (step.PutReturns? && step.id == id) || (step.Rollback? && step.id == id)
    ensures Covered(cfg, w')
  {
    assert SubmissionOk(cfg, w, id) && PutCovered(cfg, w, id);
    assert id in w.store ==> id in w.sources || Source(id) in w.reservations;
    OwnChangeCovers(cfg, w, w', id);
  }

  /** A write can only land while its reservation is there. */
  lemma PutLandsCovers(cfg: SourceConfig, w: World, id: SourceId, w': World)
    requires WorldInv(cfg, w) && Covered(cfg, w) && w' == SubmissionStep(cfg, w, PutLands(id)) && w' != w
    ensures Covered(cfg, w')
  {
    assert SubmissionOk(cfg, w, id) && PutCovered(cfg, w, id);
    OwnChangeCovers(cfg, w, w', id);
  }

  lemma GiveUpCovers(cfg: SourceConfig, w: World, step: SubmissionMove, id: SourceId, w': World)
    requires WorldInv(cfg, w) && Covered(cfg, w) && w' == SubmissionStep(cfg, w, step) && w' != w
    requires
      || (step.Compensate? && step.id == id) || (step.CompensationDeletes? && step.id == id)
      || (step.Finish? && step.id == id)
    ensures Covered(cfg, w')
  {
    assert SubmissionOk(cfg, w, id) && PutCovered(cfg, w, id);
    assert id in w.store ==> id in w.sources || Source(id) in w.reservations;
    OwnChangeCovers(cfg, w, w', id);
  }

  /** The reservation is only released when nothing was written, or after the compensating delete succeeded. */
  lemma ReleaseCovers(cfg: SourceConfig, w: World, id: SourceId, w': World)
    requires WorldInv(cfg, w) && Covered(cfg, w) && w' == SubmissionStep(cfg, w, Release(id)) && w' != w
    ensures Covered(cfg, w')
  {
    var sub := w.submissions[id];
    assert SubmissionOk(cfg, w, id);
    var rows := Drop(w.reservations, Coordination(sub.tenant, sub.digest), Submitter(id));
    DropsOnly(w.reservations, rows, DropBoth(w.reservations, sub, id), sub, id);
    ReleasedCovers(cfg, w, id, if sub.phase == Compensated then DropBoth(w.reservations, sub, id) else rows, w');
  }

  lemma ReleasedCovers(cfg: SourceConfig, w: World, id: SourceId, rows: map<ObjectKey, ReservationRow>, w': World)
    requires Covered(cfg, w) && id in w.submissions && !w.submissions[id].put.InFlight? && id !in w.store
    requires forall i :: i != id ==> (Source(i) in rows <==> Source(i) in w.reservations)
    requires forall i :: Source(i) in rows ==>
               Source(i) in w.reservations && rows[Source(i)] == w.reservations[Source(i)]
    requires w' == Move(w, id, Gone).(reservations := rows)
    ensures Covered(cfg, w')
  {
  }

  lemma PublishCovers(cfg: SourceConfig, w: World, w': World, id: SourceId)
    requires WorldInv(cfg, w) && Covered(cfg, w) && InPhase(w, id, Stored) && Publishes(cfg, w, w', id)
    ensures Covered(cfg, w')
  {
    assert SubmissionOk(cfg, w, id);
    forall i | i in w'.store ensures i in w'.sources || Source(i) in w'.reservations {}
    forall i | i in w'.submissions ensures PutCovered(cfg, w', i) { assert PutCovered(cfg, w, i); }
    forall n | n in w'.sweeps ensures SweepLate(cfg, w', n) { assert SweepLate(cfg, w, n); }
  }

  lemma RefusedIsRollback(cfg: SourceConfig, w: World, step: SubmissionMove, w': World)
    requires w' == SubmissionStep(cfg, w, step) && step.CommitTx? && InPhase(w, step.id, Stored)
    requires !SubmitTx(cfg, w, step.id, step.bundleReady, step.callbackUsable).1.Accepted?
    ensures w' == SubmissionStep(cfg, w, Rollback(step.id)) && w' != w
  {
    assert SubmitTx(cfg, w, step.id, step.bundleReady, step.callbackUsable).0 == w;
    assert w'.submissions[step.id].phase == Aborting;
  }

  lemma CommitCovers(cfg: SourceConfig, w: World, step: SubmissionMove, w': World)
    requires WorldInv(cfg, w) && Covered(cfg, w) && w' == SubmissionStep(cfg, w, step) && step.CommitTx?
    ensures Covered(cfg, w')
  {
    if InPhase(w, step.id, Stored) {
      var r := SubmitTx(cfg, w, step.id, step.bundleReady, step.callbackUsable);
      if r.1.Accepted? {
        AcceptedPublishes(cfg, w, step.id, step.bundleReady, step.callbackUsable, w');
        PublishCovers(cfg, w, w', step.id);
      } else {
        RefusedIsRollback(cfg, w, step, w');
        PhaseCovers(cfg, w, Rollback(step.id), step.id, w');
      }
    }
  }

  lemma SubmissionStepCovers(cfg: SourceConfig, w: World, step: SubmissionMove, w': World)
    requires WorldInv(cfg, w) && Exclusive(w) && Covered(cfg, w) && w' == SubmissionStep(cfg, w, step)
    ensures Covered(cfg, w')
  {
    if w' != w {
      match step
      case Begin(_, _, _, _, _, _, _) => BeginCovers(cfg, w, step, w');
      case Coordinate(id, _) => PhaseCovers(cfg, w, step, id, w');
      case Recheck(id) => PhaseCovers(cfg, w, step, id, w');
      case Reserve(id) => PhaseCovers(cfg, w, step, id, w');
      case StartPut(id) => PhaseCovers(cfg, w, step, id, w');
      case PutLands(id) => PutLandsCovers(cfg, w, id, w');
      case PutReturns(id) => PhaseCovers(cfg, w, step, id, w');
      case PutExists(id) => ReplayBranchIsDead(cfg, w, id);
      case CommitTx(_, _, _) => CommitCovers(cfg, w, step, w');
      case Rollback(id) => PhaseCovers(cfg, w, step, id, w');
      case Compensate(id) => GiveUpCovers(cfg, w, step, id, w');
      case CompensationDeletes(id) => GiveUpCovers(cfg, w, step, id, w');
      case Release(id) => ReleaseCovers(cfg, w, id, w');
      case Finish(id) => GiveUpCovers(cfg, w, step, id, w');
    }
  }

  /** This is where the timing matters: a claimable reservation belongs to a submission that is out of time. */
  lemma SweepClaimCovers(cfg: SourceConfig, w: World, key: ObjectKey, w': World)
    requires SweeperOutlivesSubmission(cfg) && WorldInv(cfg, w) && Covered(cfg, w)
    requires w' == SweepStep(cfg, w, SweepClaim(key)) && w' != w
    ensures Covered(cfg, w')
  {
    if key.Source? {
      var row := w.reservations[key];
      assert ReservationOk(w, key.id);
      assert row.owner.Sweeper? ==> SweepLate(cfg, w, row.owner.n);
      assert w.submissions[key.id].startedAt + cfg.submitTimeout <= w.now;
    }
    forall i | i in w'.submissions ensures PutCovered(cfg, w', i) { assert PutCovered(cfg, w, i); }
    forall n | n in w'.sweeps ensures SweepLate(cfg, w', n) {
      if n != w.nextToken { assert SweepLate(cfg, w, n); }
    }
  }

  lemma SweepNoteCovers(cfg: SourceConfig, w: World, step: SweepMove, n: nat, w': World)
    requires WorldInv(cfg, w) && Covered(cfg, w) && w' == SweepStep(cfg, w, step) && w' != w
    requires (step.SweepCheck? && step.n == n) || (step.SweepDeletes? && step.n == n)
    ensures Covered(cfg, w')
  {
    assert SweepLate(cfg, w, n);
    SweepMovedCovers(cfg, w, n, w'.sweeps[n].phase, w');
  }

  lemma SweepMovedCovers(cfg: SourceConfig, w: World, n: nat, phase: SweepPhase, w': World)
    requires Covered(cfg, w) && n in w.sweeps
    requires w' == w.(sweeps := w.sweeps[n := Sweep(w.sweeps[n].key, phase)], store := w'.store, doomed := w'.doomed)
    requires w'.store <= w.store
    requires (phase == SweepDeleted && w.sweeps[n].key.Source? ==> w.sweeps[n].key.id !in w'.store)
    ensures Covered(cfg, w')
  {
  }

  lemma SweepFinalizeCovers(cfg: SourceConfig, w: World, n: nat, w': World)
    requires WorldInv(cfg, w) && Covered(cfg, w) && w' == SweepStep(cfg, w, SweepFinalize(n)) && w' != w
    ensures Covered(cfg, w')
  {
    assert SweepOk(w, n) && SweepLate(cfg, w, n);
    forall i | i in w'.submissions ensures PutCovered(cfg, w', i) { assert PutCovered(cfg, w, i); }
    forall m | m in w'.sweeps ensures SweepLate(cfg, w', m) { assert SweepLate(cfg, w, m); }
  }

  lemma SweepStepCovers(cfg: SourceConfig, w: World, step: SweepMove, w': World)
    requires SweeperOutlivesSubmission(cfg) && WorldInv(cfg, w) && Covered(cfg, w) && w' == SweepStep(cfg, w, step)
    ensures Covered(cfg, w')
  {
    if w' != w {
      match step
      case SweepClaim(key) => SweepClaimCovers(cfg, w, key, w');
      case SweepCheck(n) => SweepNoteCovers(cfg, w, step, n, w');
      case SweepDeletes(n) => SweepNoteCovers(cfg, w, step, n, w');
      case SweepFinalize(n) => SweepFinalizeCovers(cfg, w, n, w');
    }
  }

  /**
   * Steps that store nothing, keep submissions, sweeps and reservations, and drop only sources whose object is gone.
   */
  lemma OtherStepCovers(cfg: SourceConfig, w: World, w': World)
    requires Covered(cfg, w)
    requires w.now <= w'.now && w'.store <= w.store
    requires w'.reservations == w.reservations && w'.submissions == w.submissions && w'.sweeps == w.sweeps
    requires forall id :: id in w.sources && id !in w'.sources ==> id !in w'.store
    ensures Covered(cfg, w')
  {
  }

  lemma RetentionStepCovers(cfg: SourceConfig, w: World, step: RetentionMove, w': World)
    requires WorldInv(cfg, w) && Covered(cfg, w) && w' == RetentionStep(cfg, w, step)
    ensures Covered(cfg, w')
  {
    if w' != w {
      assert step.RetentionFinalize? ==> RetentionOk(w, step.n);
      OtherStepCovers(cfg, w, w');
    }
  }

  lemma StepCovers(cfg: SourceConfig, w: World, step: WorldStep)
    requires SweeperOutlivesSubmission(cfg) && WorldInv(cfg, w) && Exclusive(w) && Covered(cfg, w)
    ensures Covered(cfg, Sources.Apply(cfg, w, step))
  {
    match step
    case Tick(d) => OtherStepCovers(cfg, w, w.(now := w.now + d));
    case CoreStep(inner) => OtherStepCovers(cfg, w, w.(core := JobModel.Apply(cfg.jobs, w.core, inner)));
    case DeleteLands(id) => OtherStepCovers(cfg, w, w.(store := w.store - {id}));
    case Submitting(move) => SubmissionStepCovers(cfg, w, move, SubmissionStep(cfg, w, move));
    case Sweeping(move) => SweepStepCovers(cfg, w, move, SweepStep(cfg, w, move));
    case Retaining(move) => RetentionStepCovers(cfg, w, move, RetentionStep(cfg, w, move));
  }

  lemma {:induction false} RunCovers(cfg: SourceConfig, w: World, steps: seq<WorldStep>)
    requires ValidConfig(cfg.jobs) && SweeperOutlivesSubmission(cfg)
    requires WorldInv(cfg, w) && Exclusive(w) && Covered(cfg, w)
    ensures Covered(cfg, Sources.Run(cfg, w, steps))
    decreases |steps|
  {
    if steps != [] {
      StepCovers(cfg, w, steps[0]);
      WorldStepKeepsInv(cfg, w, steps[0]);
      StepKeepsExclusive(cfg, w, steps[0], Sources.Apply(cfg, w, steps[0]));
      RunCovers(cfg, Sources.Apply(cfg, w, steps[0]), steps[1..]);
    }
  }

  // ----------------------------------------------------------------- theorems

  /** The run in which the sweeper is too quick: it reaps the reservation, then the write starts and lands. */
  function OrphanRun(cfg: SourceConfig, limits: ExecutionLimits): seq<WorldStep>
  {
    [Submitting(Begin(0, 0, 0, limits, None, 1, cfg.submitTimeout)), Submitting(Coordinate(0, 0)),
     Submitting(Recheck(0)),
     Submitting(Reserve(0)), Tick(OrphanWait(cfg)),
     Sweeping(SweepClaim(Source(0))), Sweeping(SweepCheck(0)), Sweeping(SweepDeletes(0)), Sweeping(SweepFinalize(0)),
     Submitting(StartPut(0)), Submitting(PutLands(0))]
  }

  /** One more step of a run. */
  lemma {:induction false} RunPrefix(cfg: SourceConfig, w: World, steps: seq<WorldStep>, k: nat)
    requires k < |steps|
    ensures Sources.Run(cfg, w, steps[..k + 1]) == Sources.Apply(cfg, Sources.Run(cfg, w, steps[..k]), steps[k])
    decreases k
  {
    assert steps[..k + 1][0] == steps[0];
    if k == 0 {
      assert steps[..1][1..] == [];
    } else {
      RunPrefix(cfg, Sources.Apply(cfg, w, steps[0]), steps[1..], k - 1);
      assert steps[..k + 1][1..] == steps[1..][..k];
      assert steps[..k][1..] == steps[1..][..k - 1];
    }
  }

  function OrphanWait(cfg: SourceConfig): nat
  {
    if ADMISSION_LEASE < cfg.minimumAge then cfg.minimumAge else ADMISSION_LEASE
  }

  /** The world after the source reservation was acquired and nothing was written yet. */
  function ReservedWorld(cfg: SourceConfig, limits: ExecutionLimits): World
  {
    Start().(submissions := map[0 := Submission(0, 0, 0, limits, None, 1, 0, cfg.submitTimeout, Reserved, NotStarted)],
             nextSource := 1,
             reservations := map[Coordination(0, 0) := CoordinationRow(cfg),
                                 Source(0) := ReservationRow(Submitter(0), ADMISSION_LEASE, 0)])
  }

  function CoordinationRow(cfg: SourceConfig): ReservationRow
  {
    ReservationRow(Submitter(0), cfg.submitTimeout + COMPENSATION_ALLOWANCE, 0)
  }

  /** One step earlier: the request has the coordination lease and has looked again. */
  function AdmittedWorld(cfg: SourceConfig, limits: ExecutionLimits): World
  {
    Start().(submissions := map[0 := Submission(0, 0, 0, limits, None, 1, 0, cfg.submitTimeout, Admitted, NotStarted)],
             nextSource := 1,
             reservations := map[Coordination(0, 0) := CoordinationRow(cfg)])
  }

  lemma OrphanIsAdmitted(cfg: SourceConfig, limits: ExecutionLimits)
    requires ValidSourceConfig(cfg) && !SweeperOutlivesSubmission(cfg)
    ensures Sources.Run(cfg, Start(), OrphanRun(cfg, limits)[..3]) == AdmittedWorld(cfg, limits)
  {
    var steps := OrphanRun(cfg, limits);
    var sub := Submission(0, 0, 0, limits, None, 1, 0, cfg.submitTimeout, Begun, NotStarted);
    var w1 := Start().(submissions := map[0 := sub], nextSource := 1);
    var w2 := w1.(
      submissions := map[0 := sub.(phase := Coordinated)],
      reservations := map[Coordination(0, 0) := CoordinationRow(cfg)]);
    RunPrefix(cfg, Start(), steps, 0);
    assert Sources.Run(cfg, Start(), steps[..1]) == w1;
    RunPrefix(cfg, Start(), steps, 1);
    assert Sources.Apply(cfg, w1, steps[1]) == w2;
    RunPrefix(cfg, Start(), steps, 2);
    assert Sources.Apply(cfg, w2, steps[2]) == AdmittedWorld(cfg, limits);
  }

  lemma ReserveSucceeds(cfg: SourceConfig, limits: ExecutionLimits)
    requires ValidSourceConfig(cfg)
    ensures Sources.Apply(cfg, AdmittedWorld(cfg, limits), Submitting(Reserve(0))) == ReservedWorld(cfg, limits)
  {
  }

  lemma OrphanIsReserved(cfg: SourceConfig, limits: ExecutionLimits)
    requires ValidSourceConfig(cfg) && !SweeperOutlivesSubmission(cfg)
    ensures Sources.Run(cfg, Start(), OrphanRun(cfg, limits)[..4]) == ReservedWorld(cfg, limits)
  {
    var steps := OrphanRun(cfg, limits);
    OrphanIsAdmitted(cfg, limits);
    RunPrefix(cfg, Start(), steps, 3);
    ReserveSucceeds(cfg, limits);
  }

  /** The world after the sweeper reaped that reservation. */
  function ReapedWorld(cfg: SourceConfig, limits: ExecutionLimits): World
  {
    ReservedWorld(cfg, limits).(now := OrphanWait(cfg), nextToken := 1, doomed := {0},
                                sweeps := map[0 := Sweep(Source(0), SweepDeleted)],
                                reservations := map[Coordination(0, 0) := CoordinationRow(cfg)])
  }

  /** In between: the sweeper owns the reservation. */
  function SweptWorld(cfg: SourceConfig, limits: ExecutionLimits, phase: SweepPhase, doomed: set<SourceId>): World
  {
    var w := ReservedWorld(cfg, limits);
    w.(now := OrphanWait(cfg), nextToken := 1, doomed := doomed, sweeps := map[0 := Sweep(Source(0), phase)],
       reservations := w.reservations[Source(0) := ReservationRow(Sweeper(0), OrphanWait(cfg) + SWEEP_LEASE, 0)])
  }

  lemma OrphanIsClaimed(cfg: SourceConfig, limits: ExecutionLimits)
    requires ValidSourceConfig(cfg) && !SweeperOutlivesSubmission(cfg)
    ensures Sources.Run(cfg, Start(), OrphanRun(cfg, limits)[..6]) == SweptWorld(cfg, limits, SweepClaimed, {})
  {
    var steps := OrphanRun(cfg, limits);
    OrphanIsReserved(cfg, limits);
    var w5 := ReservedWorld(cfg, limits).(now := OrphanWait(cfg));
    RunPrefix(cfg, Start(), steps, 4);
    assert Sources.Run(cfg, Start(), steps[..5]) == w5;
    RunPrefix(cfg, Start(), steps, 5);
    assert Sources.Apply(cfg, w5, steps[5]) == SweptWorld(cfg, limits, SweepClaimed, {});
  }

  lemma SweepFindsNoReference(cfg: SourceConfig, limits: ExecutionLimits)
    ensures Sources.Apply(cfg, SweptWorld(cfg, limits, SweepClaimed, {}), Sweeping(SweepCheck(0))) ==
            SweptWorld(cfg, limits, SweepDeleting, {0})
  {
  }

  lemma SweepDeletesObject(cfg: SourceConfig, limits: ExecutionLimits)
    ensures Sources.Apply(cfg, SweptWorld(cfg, limits, SweepDeleting, {0}),
                          Sweeping(SweepDeletes(0))) == SweptWorld(cfg, limits, SweepDeleted, {0})
  {
  }

  lemma SweepDropsReservation(cfg: SourceConfig, limits: ExecutionLimits)
    ensures Sources.Apply(cfg, SweptWorld(cfg, limits, SweepDeleted, {0}),
                          Sweeping(SweepFinalize(0))) == ReapedWorld(cfg, limits)
  {
    var w := SweptWorld(cfg, limits, SweepDeleted, {0});
    assert w.reservations - {Source(0)} == ReapedWorld(cfg, limits).reservations;
  }

  lemma OrphanIsReaped(cfg: SourceConfig, limits: ExecutionLimits)
    requires ValidSourceConfig(cfg) && !SweeperOutlivesSubmission(cfg)
    ensures Sources.Run(cfg, Start(), OrphanRun(cfg, limits)[..9]) == ReapedWorld(cfg, limits)
  {
    var steps := OrphanRun(cfg, limits);
    OrphanIsClaimed(cfg, limits);
    SweepFindsNoReference(cfg, limits);
    SweepDeletesObject(cfg, limits);
    SweepDropsReservation(cfg, limits);
    RunPrefix(cfg, Start(), steps, 6);
    RunPrefix(cfg, Start(), steps, 7);
    RunPrefix(cfg, Start(), steps, 8);
  }

  /** The write starts after the sweep, within the submit timeout, and lands. */
  lemma LateWriteLands(cfg: SourceConfig, limits: ExecutionLimits)
    requires ValidSourceConfig(cfg) && !SweeperOutlivesSubmission(cfg)
    ensures
      var started := Sources.Apply(cfg, ReapedWorld(cfg, limits), Submitting(StartPut(0)));
      var w := Sources.Apply(cfg, started, Submitting(PutLands(0)));
      w.store == {0} && 0 !in w.sources && Source(0) !in w.reservations
  {
    var w9 := ReapedWorld(cfg, limits);
    var w10 := Sources.Apply(cfg, w9, Submitting(StartPut(0)));
    var sub := w9.submissions[0];
    assert w10.submissions == map[0 := sub.(phase := Putting, put := InFlight(PutDeadline(cfg, sub, w9.now)))];
  }

  /** With a longer submission timeout there is a run that leaves an object nobody knows. */
  lemma QuickSweeperLeavesOrphan(cfg: SourceConfig, limits: ExecutionLimits)
    requires ValidSourceConfig(cfg) && !SweeperOutlivesSubmission(cfg)
    ensures
      var w := Sources.Run(cfg, Start(), OrphanRun(cfg, limits));
      w.store == {0} && 0 !in w.sources && Source(0) !in w.reservations
  {
    var steps := OrphanRun(cfg, limits);
    OrphanIsReaped(cfg, limits);
    RunPrefix(cfg, Start(), steps, 9);
    RunPrefix(cfg, Start(), steps, 10);
    assert steps[..11] == steps;
    LateWriteLands(cfg, limits);
  }

  /** No stored object is ever lost, in any run, exactly if the sweeper waits for the submission to be over. */
  lemma StoredObjectsAreKnown(cfg: SourceConfig, limits: ExecutionLimits)
    requires ValidSourceConfig(cfg)
    ensures SweeperOutlivesSubmission(cfg) <==> forall steps :: StoreCovered(Sources.Run(cfg, Start(), steps))
  {
    if SweeperOutlivesSubmission(cfg) {
      forall steps ensures StoreCovered(Sources.Run(cfg, Start(), steps)) {
        StartInv(cfg);
        RunCovers(cfg, Start(), steps);
      }
    } else {
      QuickSweeperLeavesOrphan(cfg, limits);
      assert !StoreCovered(Sources.Run(cfg, Start(), OrphanRun(cfg, limits)));
    }
  }

  /** The sweeper's age as its constructor takes it: nothing given means one hour. */
  function ConfiguredAge(age: nat): nat
  {
    if age == 0 then DEFAULT_MINIMUM_AGE else age
  }

  /** The program gives no age, so it loses no stored object under any submit timeout that it admits. */
  lemma DefaultSweeperLosesNothing(cfg: SourceConfig, steps: seq<WorldStep>)
    requires ValidSourceConfig(cfg) && cfg.minimumAge == ConfiguredAge(0)
    ensures StoreCovered(Sources.Run(cfg, Start(), steps))
  {
    StartInv(cfg);
    RunCovers(cfg, Start(), steps);
  }
}
