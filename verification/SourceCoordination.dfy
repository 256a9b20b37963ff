/** Submissions with the same tenant and idempotency key exclude each other, and what follows for the replay lookups. */
module SourceCoordination {
  import opened Events
  import opened JobModel
  import opened Sources

  /** From the coordination lease to the transaction. */
  predicate Holding(phase: Phase)
  {
    phase == Coordinated || phase == Admitted || phase == Reserved || phase == Putting || phase == Stored
  }

  predicate Unrecorded(w: World, k: IdemKey)
  {
    k in w.idempotency ==> w.idempotency[k].expiresAt <= w.now
  }

  /** A live request that was coordinated keeps its lease, and since it looked again nobody has recorded its key. */
  predicate Held(w: World, id: SourceId)
    requires id in w.submissions
  {
    var sub := w.submissions[id];
    var key := Coordination(sub.tenant, sub.digest);
    Holding(sub.phase) && Alive(w, id) ==>
      && Owns(w.reservations, key, Submitter(id)) && sub.deadline < w.reservations[key].leaseUntil
      && (sub.phase != Coordinated ==> Unrecorded(w, IdemKey(sub.tenant, sub.digest)))
  }

  ghost predicate Exclusive(w: World)
  {
    forall id :: id in w.submissions ==> Held(w, id)
  }

  // -------------------------------------------------------------------- steps

  /**
   * What a step of submission `n` leaves alone: the other submissions, the coordination rows that are not its own, and
   * the records of other keys; its own row too as long as it goes on.
   */
  ghost predicate QuietFor(w: World, w': World, n: SourceId)
  {
    && w'.now == w.now && n in w'.submissions && w'.submissions == w.submissions[n := w'.submissions[n]]
    && var after := w'.submissions[n];
    && (Holding(after.phase) ==> GoesOn(w, after, n))
    && (forall key :: key in w.reservations && key.Coordination? && w.reservations[key].owner != Submitter(n) ==>
          KeptRow(w, w', key))
    && (Holding(after.phase) ==> forall key :: key in w.reservations && key.Coordination? ==> KeptRow(w, w', key))
    && (forall k :: Unrecorded(w, k) ==>
          || Unrecorded(w', k)
          || (!Holding(after.phase) && Owns(w.reservations, Coordination(k.tenant, k.digest), Submitter(n))))
  }

  predicate KeptRow(w: World, w': World, key: ObjectKey)
  {
    key in w.reservations && key in w'.reservations && w'.reservations[key] == w.reservations[key]
  }

  predicate GoesOn(w: World, after: Submission, n: SourceId)
  {
    && n in w.submissions
    && var sub := w.submissions[n];
    && after.tenant == sub.tenant && after.digest == sub.digest && after.deadline == sub.deadline
    && Holding(sub.phase) && (sub.phase == Coordinated ==> after.phase == Coordinated)
  }

  lemma QuietKeeps(w: World, w': World, n: SourceId)
    requires Exclusive(w) && QuietFor(w, w', n)
    ensures Exclusive(w')
  {
    forall id | id in w'.submissions ensures Held(w', id) {
      var sub := w'.submissions[id];
      if Holding(sub.phase) && Alive(w', id) {
        assert Held(w, id);
        var k := IdemKey(sub.tenant, sub.digest);
        assert KeptRow(w, w', Coordination(k.tenant, k.digest));
        assert Unrecorded(w, k) ==> Unrecorded(w', k);
      }
    }
  }

  /** Steps that are about the submission's own phase and object only. */
  lemma PhaseIsQuiet(cfg: SourceConfig, w: World, step: SubmissionMove, w': World)
    requires w' == SubmissionStep(cfg, w, step) && w' != w
    requires !step.Coordinate? && !step.Recheck? && !step.CommitTx? && !step.Release? && !step.PutExists?
    ensures QuietFor(w, w', if step.Begin? then w.nextSource else step.id)
  {
    var n := if step.Begin? then w.nextSource else step.id;
    forall key | key in w.reservations && key.Coordination? ensures KeptRow(w, w', key) {}
  }

  /** Giving rows back leaves those of others alone. */
  lemma ReleasedIsQuiet(w: World, n: SourceId, rows: map<ObjectKey, ReservationRow>, w': World)
    requires n in w.submissions && w' == Move(w, n, Gone).(reservations := rows)
    requires forall key :: key in w.reservations && w.reservations[key].owner != Submitter(n) ==>
               key in rows && rows[key] == w.reservations[key]
    ensures QuietFor(w, w', n)
  {
  }

  lemma DropsOwnOnly(rows: map<ObjectKey, ReservationRow>, sub: Submission, n: SourceId)
    ensures
      var one := Drop(rows, Coordination(sub.tenant, sub.digest), Submitter(n));
      var both := DropBoth(rows, sub, n);
      forall key :: key in rows && rows[key].owner != Submitter(n) ==>
        key in one && one[key] == rows[key] && key in both && both[key] == rows[key]
  {
  }

  lemma ReleaseIsQuiet(cfg: SourceConfig, w: World, n: SourceId, w': World)
    requires w' == SubmissionStep(cfg, w, Release(n)) && w' != w
    ensures QuietFor(w, w', n)
  {
    DropsOwnOnly(w.reservations, w.submissions[n], n);
    ReleasedIsQuiet(w, n, w'.reservations, w');
  }

  lemma PutExistsIsQuiet(cfg: SourceConfig, w: World, n: SourceId, w': World)
    requires w' == SubmissionStep(cfg, w, PutExists(n)) && w' != w
    ensures QuietFor(w, w', n)
  {
    DropsOwnOnly(w.reservations, w.submissions[n], n);
    ReleasedIsQuiet(w, n, w'.reservations, w');
  }

  /** The transaction records its key only while it owns the coordination row. */
  lemma CommitIsQuiet(cfg: SourceConfig, w: World, n: SourceId, bundleReady: bool, callbackUsable: bool, w': World)
    requires InPhase(w, n, Stored) && w' == SubmissionStep(cfg, w, CommitTx(n, bundleReady, callbackUsable))
    ensures QuietFor(w, w', n)
  {
    var r := SubmitTx(cfg, w, n, bundleReady, callbackUsable);
    if r.1.Accepted? {
      AcceptedIsQuiet(cfg, w, n, bundleReady, callbackUsable, w');
    } else {
      assert r.0 == w;
    }
  }

  lemma AcceptedIsQuiet(cfg: SourceConfig, w: World, n: SourceId, bundleReady: bool, callbackUsable: bool, w': World)
    requires InPhase(w, n, Stored) && SubmitTx(cfg, w, n, bundleReady, callbackUsable).1.Accepted?
    requires w' == Move(SubmitTx(cfg, w, n, bundleReady, callbackUsable).0, n, Committed)
    ensures QuietFor(w, w', n)
  {
    forall key | key in w.reservations && key.Coordination? && w.reservations[key].owner != Submitter(n)
      ensures KeptRow(w, w', key)
    {
    }
  }

  /** Coordination rows are taken only when their lease has run out. */
  lemma CoordinateKeeps(cfg: SourceConfig, w: World, n: SourceId, asked: Time, w': World)
    requires Exclusive(w) && w' == SubmissionStep(cfg, w, Coordinate(n, asked)) && w' != w
    ensures Exclusive(w')
  {
    forall id | id in w'.submissions ensures Held(w', id) {
      assert id != n ==> Held(w, id);
    }
  }

  lemma RecheckKeeps(cfg: SourceConfig, w: World, n: SourceId, w': World)
    requires Exclusive(w) && w' == SubmissionStep(cfg, w, Recheck(n)) && w' != w
    ensures Exclusive(w')
  {
    forall id | id in w'.submissions ensures Held(w', id) {
      assert Held(w, id);
    }
  }

  lemma SubmissionStepKeeps(cfg: SourceConfig, w: World, step: SubmissionMove, w': World)
    requires Exclusive(w) && w' == SubmissionStep(cfg, w, step)
    ensures Exclusive(w')
  {
    if w' != w {
      var n := if step.Begin? then w.nextSource else step.id;
      match step {
        case Coordinate(_, asked) => CoordinateKeeps(cfg, w, n, asked, w');
        case Recheck(_) => RecheckKeeps(cfg, w, n, w');
        case CommitTx(_, bundleReady, callbackUsable) => CommitIsQuiet(cfg, w, n, bundleReady, callbackUsable, w');
        case Release(_) => ReleaseIsQuiet(cfg, w, n, w');
        case PutExists(_) => PutExistsIsQuiet(cfg, w, n, w');
        case _ => PhaseIsQuiet(cfg, w, step, w');
      }
      if !step.Coordinate? && !step.Recheck? {
        QuietKeeps(w, w', n);
      }
    }
  }

  predicate Submitted(row: ReservationRow, now: Time)
  {
    row.owner.Submitter? && now < row.leaseUntil
  }

  /** Steps that are not about submissions: no unexpired row of a submission changes, and records only disappear. */
  ghost predicate Apart(w: World, w': World)
  {
    && w.now <= w'.now && w'.submissions == w.submissions
    && (forall key :: key in w.reservations && Submitted(w.reservations[key], w.now) ==> KeptRow(w, w', key))
    && (forall k :: Unrecorded(w, k) ==> Unrecorded(w', k))
  }

  lemma ApartKeeps(w: World, w': World)
    requires Exclusive(w) && Apart(w, w')
    ensures Exclusive(w')
  {
    forall id | id in w'.submissions ensures Held(w', id) {
      var sub := w'.submissions[id];
      assert Held(w, id);
      assert Holding(sub.phase) && Alive(w', id) ==> KeptRow(w, w', Coordination(sub.tenant, sub.digest));
    }
  }

  /** The sweeper takes over a row only when its lease has run out, and drops only its own. */
  lemma SweepIsApart(cfg: SourceConfig, w: World, step: SweepMove, w': World)
    requires w' == SweepStep(cfg, w, step)
    ensures Apart(w, w')
  {
    match step
    case SweepClaim(_) => SweepClaimIsApart(cfg, w, step, w');
    case SweepFinalize(_) => SweepFinalizeIsApart(cfg, w, step, w');
    case _ => OtherIsApart(w, w');
  }

  lemma SweepClaimIsApart(cfg: SourceConfig, w: World, step: SweepMove, w': World)
    requires w' == SweepStep(cfg, w, step) && step.SweepClaim?
    ensures Apart(w, w')
  {
    forall key | key in w.reservations && Submitted(w.reservations[key], w.now) ensures KeptRow(w, w', key) {}
  }

  lemma SweepFinalizeIsApart(cfg: SourceConfig, w: World, step: SweepMove, w': World)
    requires w' == SweepStep(cfg, w, step) && step.SweepFinalize?
    ensures Apart(w, w')
  {
    forall key | key in w.reservations && Submitted(w.reservations[key], w.now) ensures KeptRow(w, w', key) {}
  }

  lemma RetentionIsApart(cfg: SourceConfig, w: World, step: RetentionMove, w': World)
    requires w' == RetentionStep(cfg, w, step)
    ensures Apart(w, w')
  {
    match step
    case ExpireIdempotency(keys) => ExpiryIsApart(cfg, w, keys, w');
    case _ =>
      RetentionFrame(cfg, w, step, w');
      OtherIsApart(w, w');
  }

  lemma ExpiryIsApart(cfg: SourceConfig, w: World, keys: set<IdemKey>, w': World)
    requires w' == RetentionStep(cfg, w, ExpireIdempotency(keys))
    ensures Apart(w, w')
  {
  }

  lemma RetentionFrame(cfg: SourceConfig, w: World, step: RetentionMove, w': World)
    requires w' == RetentionStep(cfg, w, step) && !step.ExpireIdempotency?
    ensures w'.now == w.now && w'.submissions == w.submissions && w'.reservations == w.reservations
    ensures w'.idempotency == w.idempotency
  {
  }

  lemma OtherIsApart(w: World, w': World)
    requires w.now <= w'.now && w'.submissions == w.submissions && w'.reservations == w.reservations
    requires w'.idempotency == w.idempotency
    ensures Apart(w, w')
  {
  }

  lemma StepKeepsExclusive(cfg: SourceConfig, w: World, step: WorldStep, w': World)
    requires Exclusive(w) && w' == Sources.Apply(cfg, w, step)
    ensures Exclusive(w')
  {
    match step
    case Submitting(move) => SubmissionStepKeeps(cfg, w, move, w');
    case Sweeping(move) =>
      SweepIsApart(cfg, w, move, w');
      ApartKeeps(w, w');
    case Retaining(move) =>
      RetentionIsApart(cfg, w, move, w');
      ApartKeeps(w, w');
    case _ =>
      OtherStepFrame(cfg, w, step, w');
      OtherIsApart(w, w');
      ApartKeeps(w, w');
  }

  lemma OtherStepFrame(cfg: SourceConfig, w: World, step: WorldStep, w': World)
    requires w' == Sources.Apply(cfg, w, step) && !step.Submitting? && !step.Sweeping? && !step.Retaining?
    ensures w.now <= w'.now && w'.submissions == w.submissions && w'.reservations == w.reservations
    ensures w'.idempotency == w.idempotency
  {
    match step
    case Tick(_) =>
    case CoreStep(inner) => CoreStepFrame(cfg, w, inner, w');
    case DeleteLands(_) =>
  }

  lemma CoreStepFrame(cfg: SourceConfig, w: World, step: Step, w': World)
    requires w' == Sources.Apply(cfg, w, CoreStep(step))
    ensures w' == w.(core := w'.core)
  {
  }

  lemma {:induction false} RunKeepsExclusive(cfg: SourceConfig, w: World, steps: seq<WorldStep>)
    requires Exclusive(w)
    ensures Exclusive(Sources.Run(cfg, w, steps))
    decreases |steps|
  {
    if steps != [] {
      StepKeepsExclusive(cfg, w, steps[0], Sources.Apply(cfg, w, steps[0]));
      RunKeepsExclusive(cfg, Sources.Apply(cfg, w, steps[0]), steps[1..]);
    }
  }

  // ----------------------------------------------------------------- theorems

  /** While a request holds its lease, no other submission of the same tenant and key can commit. */
  lemma OthersCannotCommit(
    cfg: SourceConfig, w: World, id: SourceId, other: SourceId, bundleReady: bool, callbackUsable: bool)
    requires Exclusive(w) && SameKey(w, id, other) && Holding(w.submissions[id].phase) && Alive(w, id)
    ensures SubmitTx(cfg, w, other, bundleReady, callbackUsable) == (w, SubmitUnavailable)
  {
    assert Held(w, id);
  }

  /** Once a live request has looked again, no later lookup finds a record: neither a replay nor a conflict. */
  lemma RecheckedIsFresh(w: World, id: SourceId, hash: RequestHash)
    requires Exclusive(w) && id in w.submissions && Alive(w, id)
    requires Holding(w.submissions[id].phase) && w.submissions[id].phase != Coordinated
    ensures FindReplay(w, w.submissions[id].tenant, w.submissions[id].digest, hash) == Fresh
  {
    assert Held(w, id);
  }

  /** So the branch that finds a replay after the object store reported an existing key is never taken. */
  lemma ReplayBranchIsDead(cfg: SourceConfig, w: World, id: SourceId)
    requires Exclusive(w)
    ensures SubmissionStep(cfg, w, PutExists(id)) == w
  {
    if InPhase(w, id, Putting) && Alive(w, id) {
      RecheckedIsFresh(w, id, w.submissions[id].hash);
    }
  }

  predicate SameKey(w: World, id: SourceId, other: SourceId)
  {
    && id in w.submissions && other in w.submissions && id != other
    && w.submissions[id].tenant == w.submissions[other].tenant
    && w.submissions[id].digest == w.submissions[other].digest
  }

  /** In every run: same tenant and key, one live holder at a time, and no replay for it in the transaction. */
  lemma OneHolderPerKey(
    cfg: SourceConfig, steps: seq<WorldStep>, id: SourceId, other: SourceId, bundleReady: bool, callbackUsable: bool)
    ensures
      var w := Sources.Run(cfg, Start(), steps);
      && SubmissionStep(cfg, w, PutExists(id)) == w
      && (id in w.submissions && w.submissions[id].phase == Stored && Alive(w, id) ==>
            var r := SubmitTx(cfg, w, id, bundleReady, callbackUsable).1;
            !r.ReplayedJob? && r != SubmitConflict)
      && (SameKey(w, id, other) && Holding(w.submissions[id].phase) && Holding(w.submissions[other].phase) ==>
            !Alive(w, id) || !Alive(w, other))
  {
    RunKeepsExclusive(cfg, Start(), steps);
    var w := Sources.Run(cfg, Start(), steps);
    ReplayBranchIsDead(cfg, w, id);
    assert id in w.submissions ==> Held(w, id);
    assert other in w.submissions ==> Held(w, other);
  }
}
