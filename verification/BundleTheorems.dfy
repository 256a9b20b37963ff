/** What bundle publication promises in every run. */
module BundleTheorems {
  import opened Options
  import opened Events
  import opened Bundles
  import opened BundleInvariants

  // ------------------------------------------------------------------- histories

  /** Size and creation time of a row never change, READY rows do not change at all, and a token never comes back. */
  predicate RowAdvances(before: BundleRow, after: BundleRow, nextToken: nat)
  {
    && after.size == before.size && after.createdAt == before.createdAt
    && (before.status == Ready ==> after == before)
    && (after.token.Some? ==> after.token == before.token || nextToken <= after.token.value)
    && (after.staging == None ==> before.staging == None)
  }

  ghost predicate Advances(w: World, w': World)
  {
    && w.nextToken <= w'.nextToken
    && (forall key :: key in w.rows ==> key in w'.rows && RowAdvances(w.rows[key], w'.rows[key], w.nextToken))
    && (forall key :: key in w'.rows && key !in w.rows ==> w'.rows[key].staging.Some?)
    && (forall n :: n in w.promotions ==> n in w'.promotions && w'.promotions[n].key == w.promotions[n].key)
  }

  lemma AdvancesTransitive(a: World, b: World, c: World)
    requires Advances(a, b) && Advances(b, c)
    ensures Advances(a, c)
  {
  }

  lemma SameRowsAdvance(w: World, w': World)
    requires w'.rows == w.rows && w.nextToken <= w'.nextToken
    requires forall n :: n in w.promotions ==> n in w'.promotions && w'.promotions[n].key == w.promotions[n].key
    ensures Advances(w, w')
  {
  }

  /** Revival is for rows that are ABANDONED or were never staged; READY rows are neither, so none is ever demoted. */
  lemma OnlyStrandedRowsAreRevived(cfg: BundleConfig, w: World, id: StagingId, admissible: bool, w': World)
    requires BundleInv(cfg, w) && UploadIn(w, id, Staged) && w.now < w.uploads[id].startedAt + cfg.operationTimeout
    requires w' == UploadStep(cfg, w, Commit(id, admissible))
    ensures forall key :: key in w.rows ==>
              && key in w'.rows && w'.rows[key].size == w.rows[key].size
              && w'.rows[key].createdAt == w.rows[key].createdAt
              && (w'.rows[key].token.Some? ==> w'.rows[key].token == w.rows[key].token)
              && (w'.rows[key].staging == None ==> w.rows[key].staging == None)
              && (!NeedsFreshStaging(w.rows[key]) || w.rows[key].status == Ready ==> w'.rows[key] == w.rows[key])
    ensures forall key :: key in w'.rows && key !in w.rows ==> w'.rows[key].staging.Some?
    ensures w'.nextToken == w.nextToken && w'.promotions == w.promotions
  {
    var key := w.uploads[id].key;
    assert key in w.rows ==> RowOk(w, key);
    CommittedRows(cfg, w, id, admissible, w');
  }

  lemma CommittedRows(cfg: BundleConfig, w: World, id: StagingId, admissible: bool, w': World)
    requires UploadIn(w, id, Staged) && w.now < w.uploads[id].startedAt + cfg.operationTimeout
    requires w.uploads[id].key in w.rows ==> RowOk(w, w.uploads[id].key)
    requires w' == UploadStep(cfg, w, Commit(id, admissible))
    ensures forall key :: key in w.rows ==>
              && key in w'.rows && w'.rows[key].size == w.rows[key].size
              && w'.rows[key].createdAt == w.rows[key].createdAt
              && (w'.rows[key].token.Some? ==> w'.rows[key].token == w.rows[key].token)
              && (w'.rows[key].staging == None ==> w.rows[key].staging == None)
              && (!NeedsFreshStaging(w.rows[key]) || w.rows[key].status == Ready ==> w'.rows[key] == w.rows[key])
    ensures forall key :: key in w'.rows && key !in w.rows ==> w'.rows[key].staging.Some?
    ensures w'.nextToken == w.nextToken && w'.promotions == w.promotions
  {
  }

  lemma CommitAdvances(cfg: BundleConfig, w: World, id: StagingId, admissible: bool, w': World)
    requires BundleInv(cfg, w) && UploadIn(w, id, Staged) && w.now < w.uploads[id].startedAt + cfg.operationTimeout
    requires w' == UploadStep(cfg, w, Commit(id, admissible))
    ensures Advances(w, w')
  {
    OnlyStrandedRowsAreRevived(cfg, w, id, admissible, w');
    forall k | k in w.rows ensures k in w'.rows && RowAdvances(w.rows[k], w'.rows[k], w.nextToken) {
      assert RowOk(w, k);
    }
  }

  lemma OtherUploadStepsKeepRows(cfg: BundleConfig, w: World, step: UploadMove)
    requires !step.Commit?
    ensures
      var w' := UploadStep(cfg, w, step);
      w'.rows == w.rows && w'.promotions == w.promotions && w'.nextToken == w.nextToken
  {
  }

  lemma UploadStepAdvances(cfg: BundleConfig, w: World, step: UploadMove, w': World)
    requires BundleInv(cfg, w) && w' == UploadStep(cfg, w, step)
    ensures Advances(w, w')
  {
    if !step.Commit? {
      OtherUploadStepsKeepRows(cfg, w, step);
      SameRowsAdvance(w, w');
    } else if UploadIn(w, step.id, Staged) && w.now < w.uploads[step.id].startedAt + cfg.operationTimeout {
      CommitAdvances(cfg, w, step.id, step.admissible, w');
    } else {
      SameRowsAdvance(w, w');
    }
  }

  lemma RowWrittenAdvances(w: World, key: BundleKey, row: BundleRow, w': World)
    requires key in w.rows && w'.rows == w.rows[key := row] && w.nextToken <= w'.nextToken
    requires RowAdvances(w.rows[key], row, w.nextToken)
    requires forall n :: n in w.promotions ==> n in w'.promotions && w'.promotions[n].key == w.promotions[n].key
    ensures Advances(w, w')
  {
  }

  lemma OtherPromotionStepsKeepRows(cfg: BundleConfig, w: World, step: PromotionMove)
    requires !step.Claim? && !step.Complete? && !step.Fail?
    ensures
      var w' := PromotionStep(cfg, w, step);
      w'.rows == w.rows && w'.nextToken == w.nextToken
  {
  }

  lemma OtherPromotionStepsKeepKeys(cfg: BundleConfig, w: World, step: PromotionMove, n: nat)
    requires !step.Claim? && !step.Complete? && !step.Fail? && n in w.promotions
    ensures n in PromotionStep(cfg, w, step).promotions
    ensures PromotionStep(cfg, w, step).promotions[n].key == w.promotions[n].key
  {
  }

  lemma ClaimAdvances(cfg: BundleConfig, w: World, key: BundleKey, lease: nat, w': World)
    requires BundleInv(cfg, w) && w' == ClaimTx(w, key, lease)
    ensures Advances(w, w')
  {
    if w' == w {
      SameRowsAdvance(w, w');
    } else {
      assert RowOk(w, key);
      forall n | n in w.promotions
        ensures n in w'.promotions && w'.promotions[n].key == w.promotions[n].key
      {
        assert PromotionOk(w, n);
      }
      RowWrittenAdvances(w, key, w'.rows[key], w');
    }
  }

  /** Completing or failing writes the row of a publication in progress, or nothing. */
  lemma SettledAdvances(w: World, n: nat, phase: PromotionPhase, row: BundleRow, w': World)
    requires n in w.promotions && w.promotions[n].key in w.rows && w.rows[w.promotions[n].key].status == Publishing
    requires w' == MovePromotion(w, n, phase).(rows := w.rows[w.promotions[n].key := row])
    requires row.token == None && row.size == w.rows[w.promotions[n].key].size
    requires row.createdAt == w.rows[w.promotions[n].key].createdAt
    requires row.staging == w.rows[w.promotions[n].key].staging
    ensures Advances(w, w')
  {
  }

  lemma MovedAdvances(w: World, n: nat, phase: PromotionPhase, w': World)
    requires n in w.promotions && w' == MovePromotion(w, n, phase)
    ensures Advances(w, w')
  {
  }

  lemma CompleteAdvances(cfg: BundleConfig, w: World, n: nat, w': World)
    requires w' == PromotionStep(cfg, w, Complete(n))
    ensures Advances(w, w')
  {
    if !PromotionIn(w, n, Promoted) {
      SameRowsAdvance(w, w');
    } else if Holds(w, w.promotions[n].key, n) {
      var row := w.rows[w.promotions[n].key].(
        status := Ready, readyAt := Some(w.now), token := None, leaseUntil := None);
      SettledAdvances(w, n, Completed, row, w');
    } else {
      MovedAdvances(w, n, Over, w');
    }
  }

  lemma FailAdvances(cfg: BundleConfig, w: World, n: nat, nextAttempt: Time, w': World)
    requires w' == PromotionStep(cfg, w, Fail(n, nextAttempt))
    ensures Advances(w, w')
  {
    if !PromotionIn(w, n, Broken) {
      SameRowsAdvance(w, w');
    } else if Holds(w, w.promotions[n].key, n) {
      var abandoned := w.promotions[n].attemptCount >= cfg.maxPublishAttempts;
      var row := w.rows[w.promotions[n].key].(
        status := if abandoned then Abandoned else Pending, token := None, leaseUntil := None,
        nextAttemptAt := nextAttempt, abandonedAt := if abandoned then Some(nextAttempt) else None);
      SettledAdvances(w, n, if abandoned then GivenUp else Over, row, w');
    } else {
      MovedAdvances(w, n, Over, w');
    }
  }

  lemma PromotionStepAdvances(cfg: BundleConfig, w: World, step: PromotionMove, w': World)
    requires BundleInv(cfg, w) && w' == PromotionStep(cfg, w, step)
    ensures Advances(w, w')
  {
    match step
    case Claim(key, lease) => ClaimAdvances(cfg, w, key, lease, w');
    case Complete(n) => CompleteAdvances(cfg, w, n, w');
    case Fail(n, nextAttempt) => FailAdvances(cfg, w, n, nextAttempt, w');
    case _ =>
      OtherPromotionStepsKeepRows(cfg, w, step);
      forall n | n in w.promotions ensures n in w'.promotions && w'.promotions[n].key == w.promotions[n].key {
        OtherPromotionStepsKeepKeys(cfg, w, step, n);
      }
      SameRowsAdvance(w, w');
  }

  lemma CollectionStepAdvances(cfg: BundleConfig, w: World, step: CollectionMove)
    ensures Advances(w, CollectionStep(cfg, w, step))
  {
  }

  lemma StepAdvances(cfg: BundleConfig, w: World, step: Step)
    requires ValidBundleConfig(cfg) && BundleInv(cfg, w)
    ensures Advances(w, Apply(cfg, w, step))
  {
    match step
    case Tick(d) => SameRowsAdvance(w, Apply(cfg, w, step));
    case ExpireRecords(keys) => SameRowsAdvance(w, Apply(cfg, w, step));
    case DiscardLands(id) => SameRowsAdvance(w, Apply(cfg, w, step));
    case SweepUnrecoverable(bundles, before) =>
      forall key | key in w.rows ensures RowAdvances(w.rows[key], SweptRows(w, bundles, before)[key], w.nextToken) {
        SweepAbandonsMigratedRows(cfg, w, bundles, before, key);
      }
    case Uploading(move) => UploadStepAdvances(cfg, w, move, UploadStep(cfg, w, move));
    case Promoting(move) => PromotionStepAdvances(cfg, w, move, PromotionStep(cfg, w, move));
    case Collecting(move) => CollectionStepAdvances(cfg, w, move);
  }

  lemma {:induction false} RunAdvances(cfg: BundleConfig, w: World, steps: seq<Step>)
    requires ValidBundleConfig(cfg) && BundleInv(cfg, w)
    ensures Advances(w, Run(cfg, w, steps)) && BundleInv(cfg, Run(cfg, w, steps))
    decreases |steps|
  {
    if steps == [] {
      SameRowsAdvance(w, w);
    } else {
      var w1 := Apply(cfg, w, steps[0]);
      StepAdvances(cfg, w, steps[0]);
      BundleInvariants.StepKeepsInv(cfg, w, steps[0]);
      RunAdvances(cfg, w1, steps[1..]);
      AdvancesTransitive(w, w1, Run(cfg, w, steps));
    }
  }

  // -------------------------------------------------------------------- theorems

  /**
   * Whatever is discarded or collected: while a row is PENDING or PUBLISHING, the staged object it refers to is there,
   * with the row's digest. The only rows that refer to none are migrated ones that nobody has uploaded again.
   */
  lemma StagedObjectIsThere(cfg: BundleConfig, start: World, steps: seq<Step>, key: BundleKey)
    requires ValidBundleConfig(cfg) && Initial(start)
    ensures
      var w := Run(cfg, start, steps);
      key in w.rows && Live(w.rows[key]) ==>
        match w.rows[key].staging
        case Some(id) => id in w.staged && id !in w.doomed && w.staged[id].content.digest == key.digest
        case None => key in start.rows && w.rows[key].status == Pending
  {
    InitialInv(cfg, start);
    RunAdvances(cfg, start, steps);
    var w := Run(cfg, start, steps);
    if key in w.rows && Live(w.rows[key]) {
      assert RowOk(w, key);
      if w.rows[key].staging.Some? {
        assert UploadOk(cfg, w, w.rows[key].staging.value);
      }
    }
  }

  /** READY means that the row has been staged and its final object is stored with the row's digest and size. */
  lemma ReadyIsStored(cfg: BundleConfig, start: World, steps: seq<Step>, key: BundleKey)
    requires ValidBundleConfig(cfg) && Initial(start)
    ensures
      var w := Run(cfg, start, steps);
      key in w.rows && w.rows[key].status == Ready ==>
        key in w.finals && w.finals[key] == Object(key.digest, w.rows[key].size) && w.rows[key].staging.Some?
  {
    InitialInv(cfg, start);
    BundleInvariants.RunKeepsInv(cfg, start, steps);
    var w := Run(cfg, start, steps);
    assert key in w.rows ==> RowOk(w, key);
  }

  /** Once a row has been staged, the sweep of unrecoverable rows leaves it alone in every run. */
  lemma StagedRowsAreNeverSwept(
    cfg: BundleConfig, w: World, steps: seq<Step>, key: BundleKey, bundles: set<BundleKey>, before: Time)
    requires ValidBundleConfig(cfg) && BundleInv(cfg, w) && key in w.rows && w.rows[key].staging.Some?
    ensures
      var w' := Run(cfg, w, steps);
      key in w'.rows && SweptRows(w', bundles, before)[key] == w'.rows[key]
  {
    RunAdvances(cfg, w, steps);
    assert RowAdvances(w.rows[key], Run(cfg, w, steps).rows[key], w.nextToken);
    SweepAbandonsMigratedRows(cfg, Run(cfg, w, steps), bundles, before, key);
  }

  /** READY is absorbing: whatever runs, the row stays exactly as it is. */
  lemma ReadyIsFinal(cfg: BundleConfig, w: World, steps: seq<Step>, key: BundleKey)
    requires ValidBundleConfig(cfg) && BundleInv(cfg, w) && key in w.rows && w.rows[key].status == Ready
    ensures key in Run(cfg, w, steps).rows && Run(cfg, w, steps).rows[key] == w.rows[key]
  {
    RunAdvances(cfg, w, steps);
    assert RowAdvances(w.rows[key], Run(cfg, w, steps).rows[key], w.nextToken);
  }

  /** Without the fence, completing or failing leaves every row as it is. */
  lemma UnheldIsRefused(cfg: BundleConfig, w: World, n: nat, nextAttempt: Time)
    requires n in w.promotions && !Holds(w, w.promotions[n].key, n)
    ensures Apply(cfg, w, Promoting(Complete(n))).rows == w.rows
    ensures Apply(cfg, w, Promoting(Fail(n, nextAttempt))).rows == w.rows
  {
  }

  /** A promoter whose token was replaced can neither complete nor fail the publication, now or ever. */
  lemma ReplacedTokenIsPowerless(cfg: BundleConfig, w: World, steps: seq<Step>, n: nat, nextAttempt: Time)
    requires ValidBundleConfig(cfg) && BundleInv(cfg, w) && n in w.promotions && !Holds(w, w.promotions[n].key, n)
    ensures
      var w' := Run(cfg, w, steps);
      && !Holds(w', w.promotions[n].key, n)
      && Apply(cfg, w', Promoting(Complete(n))).rows == w'.rows
      && Apply(cfg, w', Promoting(Fail(n, nextAttempt))).rows == w'.rows
  {
    assert PromotionOk(w, n);
    RunAdvances(cfg, w, steps);
    var w' := Run(cfg, w, steps);
    var key := w.promotions[n].key;
    assert RowOk(w, key) && RowAdvances(w.rows[key], w'.rows[key], w.nextToken);
    assert w'.promotions[n].key == key;
    UnheldIsRefused(cfg, w', n, nextAttempt);
  }

  /** The collector's third check never fires: what it has discarded is not referenced, and never will be. */
  lemma CollectedIsNeverReferenced(cfg: BundleConfig, w: World, steps: seq<Step>, n: nat)
    requires ValidBundleConfig(cfg) && BundleInv(cfg, w) && n in w.collections && w.collections[n].phase == Discarding
    ensures !Referenced(Run(cfg, w, steps), w.collections[n].staging)
  {
    var id := w.collections[n].staging;
    assert CollectionOk(cfg, w, n);
    RunKeepsDoom(cfg, w, steps, id);
    var w' := Run(cfg, w, steps);
    BundleInvariants.RunKeepsInv(cfg, w, steps);
    assert DoomedOk(cfg, w', id);
    assert forall key :: key in w'.rows && w'.rows[key].staging == Some(id) ==> !Live(w'.rows[key]);
  }

  lemma UploadKeepsDoom(cfg: BundleConfig, w: World, step: UploadMove)
    ensures w.doomed <= UploadStep(cfg, w, step).doomed
  {
  }

  lemma PromotionKeepsDoom(cfg: BundleConfig, w: World, step: PromotionMove)
    ensures w.doomed <= PromotionStep(cfg, w, step).doomed
  {
  }

  lemma CollectionKeepsDoom(cfg: BundleConfig, w: World, step: CollectionMove)
    ensures w.doomed <= CollectionStep(cfg, w, step).doomed
  {
  }

  lemma StepKeepsDoom(cfg: BundleConfig, w: World, step: Step)
    ensures w.doomed <= Apply(cfg, w, step).doomed
  {
    match step
    case Uploading(move) => UploadKeepsDoom(cfg, w, move);
    case Promoting(move) => PromotionKeepsDoom(cfg, w, move);
    case Collecting(move) => CollectionKeepsDoom(cfg, w, move);
    case _ =>
  }

  lemma {:induction false} RunKeepsDoom(cfg: BundleConfig, w: World, steps: seq<Step>, id: StagingId)
    requires id in w.doomed
    ensures id in Run(cfg, w, steps).doomed
    decreases |steps|
  {
    if steps != [] {
      StepKeepsDoom(cfg, w, steps[0]);
      RunKeepsDoom(cfg, Apply(cfg, w, steps[0]), steps[1..], id);
    }
  }
}
