/** What the bundle transactions answer and write, read off the rows, and what the idempotency records promise. */
module BundleAnswers {
  import opened Options
  import opened Events
  import opened Bundles
  import opened BundleInvariants
  import opened BundleTheorems

  // --------------------------------------------------------------------- upload

  /** The record under a key, while it lasts and its bundle exists. */
  predicate HasRecord(w: World, k: IdemKey)
  {
    k in w.records && w.now < w.records[k].expiresAt && BundleKey(k.tenant, w.records[k].request) in w.rows
  }

  /** The row after an upload: a new one, one that starts again with the uploaded object, or the one that was there. */
  predicate UploadedRow(w: World, id: StagingId, after: BundleRow)
    requires id in w.uploads
  {
    var up := w.uploads[id];
    if up.key !in w.rows then
      after == BundleRow(up.size, Some(id), Pending, None, None, 0, w.now, w.now, None, None)
    else if w.rows[up.key].status == Abandoned || w.rows[up.key].staging == None then
      after == BundleRow(w.rows[up.key].size, Some(id), Pending, None, None, 0, w.now, w.rows[up.key].createdAt, None,
                         None)
    else after == w.rows[up.key]
  }

  /**
   * An upload is refused if the tenant may not upload it, and conflicts if its key has a live record of another
   * content. Else there is one row for its content, and a live record of it.
   */
  lemma CommitAnswer(cfg: BundleConfig, w: World, id: StagingId, admissible: bool)
    requires id in w.uploads
    ensures
      var r := CommitTx(cfg, w, id, admissible);
      var up := w.uploads[id];
      var k := IdemKey(up.key.tenant, up.idem);
      if !admissible then r == (w, Rejected)
      else if HasRecord(w, k) && w.records[k].request != up.key.digest then r == (w, Conflict)
      else
        && up.key in r.0.rows && k in r.0.records
        && r.0 == w.(rows := w.rows[up.key := r.0.rows[up.key]], records := w.records[k := r.0.records[k]])
        && r.1 == Replay(r.0.rows[up.key].status, r.0.rows[up.key].staging) && UploadedRow(w, id, r.0.rows[up.key])
        && r.0.records[k] ==
             (if HasRecord(w, k) then w.records[k] else IdemRecord(up.key.digest, w.now + cfg.idempotencyTtl))
  {
  }

  // ---------------------------------------------------------------- idempotency

  predicate RecordKept(w: World, w': World, k: IdemKey)
    requires k in w.records
  {
    && w.now <= w'.now && w.rows.Keys <= w'.rows.Keys
    && (w'.now < w.records[k].expiresAt ==> k in w'.records && w'.records[k] == w.records[k])
  }

  lemma UploadKeepsRecord(cfg: BundleConfig, w: World, step: UploadMove, k: IdemKey)
    requires HasRecord(w, k)
    ensures RecordKept(w, UploadStep(cfg, w, step), k)
  {
    if step.Commit? && step.id in w.uploads {
      CommitAnswer(cfg, w, step.id, step.admissible);
    }
  }

  lemma PromotionKeepsRecord(cfg: BundleConfig, w: World, step: PromotionMove, k: IdemKey)
    requires k in w.records
    ensures RecordKept(w, PromotionStep(cfg, w, step), k)
  {
  }

  lemma CollectionKeepsRecord(cfg: BundleConfig, w: World, step: CollectionMove, k: IdemKey)
    requires k in w.records
    ensures RecordKept(w, CollectionStep(cfg, w, step), k)
  {
  }

  lemma StepKeepsRecord(cfg: BundleConfig, w: World, step: Step, k: IdemKey)
    requires HasRecord(w, k)
    ensures RecordKept(w, Apply(cfg, w, step), k)
  {
    match step
    case Uploading(move) => UploadKeepsRecord(cfg, w, move, k);
    case Promoting(move) => PromotionKeepsRecord(cfg, w, move, k);
    case Collecting(move) => CollectionKeepsRecord(cfg, w, move, k);
    case _ =>
  }

  /** Until it expires a record stays as it is, whatever runs, and so does the bundle it names. */
  lemma {:induction false} RunKeepsRecord(cfg: BundleConfig, w: World, steps: seq<Step>, k: IdemKey)
    requires HasRecord(w, k)
    ensures w.now <= Run(cfg, w, steps).now
    ensures
      var w' := Run(cfg, w, steps);
      w'.now < w.records[k].expiresAt ==> HasRecord(w', k) && w'.records[k] == w.records[k]
    decreases |steps|
  {
    if steps != [] {
      var w1 := Apply(cfg, w, steps[0]);
      StepKeepsRecord(cfg, w, steps[0], k);
      if w1.now < w.records[k].expiresAt {
        RunKeepsRecord(cfg, w1, steps[1..], k);
      } else {
        RunKeepsClock(cfg, w1, steps[1..]);
      }
    }
  }

  lemma StepKeepsClock(cfg: BundleConfig, w: World, step: Step)
    ensures w.now <= Apply(cfg, w, step).now
  {
    match step
    case Uploading(move) => UploadKeepsClock(cfg, w, move);
    case Promoting(move) => PromotionKeepsClock(cfg, w, move);
    case Collecting(move) => CollectionKeepsClock(cfg, w, move);
    case _ =>
  }

  lemma UploadKeepsClock(cfg: BundleConfig, w: World, step: UploadMove)
    ensures UploadStep(cfg, w, step).now == w.now
  {
  }

  lemma PromotionKeepsClock(cfg: BundleConfig, w: World, step: PromotionMove)
    ensures PromotionStep(cfg, w, step).now == w.now
  {
    match step
    case Claim(_, _) =>
    case FindFinal(_) =>
    case Copy(_) =>
    case CopyLands(_) =>
    case Verify(_) =>
    case Break(_) =>
    case Complete(_) =>
    case Fail(_, _) =>
    case DiscardPromoted(_) =>
  }

  lemma CollectionKeepsClock(cfg: BundleConfig, w: World, step: CollectionMove)
    ensures CollectionStep(cfg, w, step).now == w.now
  {
  }

  lemma {:induction false} RunKeepsClock(cfg: BundleConfig, w: World, steps: seq<Step>)
    ensures w.now <= Run(cfg, w, steps).now
    decreases |steps|
  {
    if steps != [] {
      StepKeepsClock(cfg, w, steps[0]);
      RunKeepsClock(cfg, Apply(cfg, w, steps[0]), steps[1..]);
    }
  }

  /**
   * Until the record of an upload expires, whatever runs in between, a repeated upload of the same content under the
   * same key is answered with the bundle, and an upload of other content under that key conflicts.
   */
  lemma RepeatedUploadAnswer(
    cfg: BundleConfig, w: World, steps: seq<Step>, k: IdemKey, id: StagingId)
    requires HasRecord(w, k) && Run(cfg, w, steps).now < w.records[k].expiresAt
    requires
      var w' := Run(cfg, w, steps);
      id in w'.uploads && IdemKey(w'.uploads[id].key.tenant, w'.uploads[id].idem) == k
    ensures
      var w' := Run(cfg, w, steps);
      var r := CommitTx(cfg, w', id, true);
      if w'.uploads[id].key.digest == w.records[k].request
      then r.1.Replay? && r.0.rows.Keys == w'.rows.Keys && r.0.records == w'.records
      else r == (w', Conflict)
  {
    RunKeepsRecord(cfg, w, steps, k);
    var w' := Run(cfg, w, steps);
    CommitAnswer(cfg, w', id, true);
    assert w'.records == w'.records[k := w'.records[k]];
    var up := w'.uploads[id];
    assert up.key == BundleKey(up.key.tenant, up.key.digest);
  }

  // ---------------------------------------------------------------- publication

  /** The row waits and its time has come, or its publisher has lost it; it has something to publish. */
  predicate Due(row: BundleRow, now: Time)
  {
    && row.staging.Some? && row.abandonedAt == None
    && (|| (row.status == Pending && row.nextAttemptAt <= now)
        || (row.status == Publishing && row.leaseUntil.Some? && row.leaseUntil.value <= now))
  }

  /** A publication is claimed exactly if its row is due; the row is then leased under a fresh token. */
  lemma ClaimAnswer(cfg: BundleConfig, w: World, key: BundleKey, lease: nat)
    ensures
      var w' := Apply(cfg, w, Promoting(Claim(key, lease)));
      if key in w.rows && Due(w.rows[key], w.now) && lease > 0
      then
        && w'.rows == w.rows[key := w.rows[key].(status := Publishing, token := Some(w.nextToken),
             leaseUntil := Some(w.now + lease), attemptCount := w.rows[key].attemptCount + 1)]
        && w' == w.(rows := w'.rows, promotions := w'.promotions, nextToken := w.nextToken + 1)
        && w'.promotions == w.promotions[w.nextToken := Promotion(
             key, w.rows[key].staging.value, w.rows[key].size, w.rows[key].attemptCount + 1, Claimed, false)]
      else w' == w
  {
  }

  /** A promotion completes or fails its row exactly while the row is PUBLISHING under its token. */
  predicate HoldsRow(w: World, n: nat)
  {
    && n in w.promotions && w.promotions[n].key in w.rows
    && w.rows[w.promotions[n].key].status == Publishing && w.rows[w.promotions[n].key].token == Some(n)
  }

  lemma CompleteAnswer(cfg: BundleConfig, w: World, n: nat)
    ensures
      var w' := Apply(cfg, w, Promoting(Complete(n)));
      if PromotionIn(w, n, Promoted) && HoldsRow(w, n)
      then w'.rows == w.rows[w.promotions[n].key := w.rows[w.promotions[n].key].(
             status := Ready, readyAt := Some(w.now), token := None, leaseUntil := None)]
      else w'.rows == w.rows
  {
  }

  /** A failed publication is tried again at the given time, or abandoned after the last attempt. */
  lemma FailAnswer(cfg: BundleConfig, w: World, n: nat, nextAttempt: Time)
    ensures
      var w' := Apply(cfg, w, Promoting(Fail(n, nextAttempt)));
      if PromotionIn(w, n, Broken) && HoldsRow(w, n)
      then
        var row := w.rows[w.promotions[n].key].(token := None, leaseUntil := None, nextAttemptAt := nextAttempt);
        w'.rows == w.rows[w.promotions[n].key :=
          if w.promotions[n].attemptCount < cfg.maxPublishAttempts
          then row.(status := Pending, abandonedAt := None)
          else row.(status := Abandoned, abandonedAt := Some(nextAttempt))]
      else w'.rows == w.rows
  {
  }

  /** A staged row that waits for a later attempt. */
  predicate Waiting(row: BundleRow)
  {
    row.status == Pending && row.staging.Some? && row.abandonedAt == None && row.token == None
  }

  lemma CommitKeepsWaiting(cfg: BundleConfig, w: World, id: StagingId, admissible: bool, key: BundleKey)
    requires key in w.rows && Waiting(w.rows[key])
    ensures
      var w' := UploadStep(cfg, w, Commit(id, admissible));
      key in w'.rows && w'.rows[key] == w.rows[key]
  {
    if UploadIn(w, id, Staged) {
      CommitAnswer(cfg, w, id, admissible);
    }
  }

  lemma PromotionKeepsWaiting(cfg: BundleConfig, w: World, step: PromotionMove, key: BundleKey)
    requires key in w.rows && Waiting(w.rows[key]) && w.now < w.rows[key].nextAttemptAt
    ensures
      var w' := PromotionStep(cfg, w, step);
      key in w'.rows && w'.rows[key] == w.rows[key]
  {
    match step
    case Claim(other, lease) => ClaimAnswer(cfg, w, other, lease);
    case Complete(n) => CompleteAnswer(cfg, w, n);
    case Fail(n, nextAttempt) => FailAnswer(cfg, w, n, nextAttempt);
    case _ => OtherPromotionStepsKeepRows(cfg, w, step);
  }

  lemma StepKeepsWaiting(cfg: BundleConfig, w: World, step: Step, key: BundleKey)
    requires key in w.rows && Waiting(w.rows[key]) && w.now < w.rows[key].nextAttemptAt
    ensures
      var w' := Apply(cfg, w, step);
      key in w'.rows && w'.rows[key] == w.rows[key]
  {
    match step
    case Uploading(move) =>
      if move.Commit? {
        CommitKeepsWaiting(cfg, w, move.id, move.admissible, key);
      } else {
        OtherUploadStepsKeepRows(cfg, w, move);
      }
    case Promoting(move) => PromotionKeepsWaiting(cfg, w, move, key);
    case Collecting(move) => CollectionStepAdvancesRows(cfg, w, move);
    case _ =>
  }

  lemma CollectionStepAdvancesRows(cfg: BundleConfig, w: World, step: CollectionMove)
    ensures CollectionStep(cfg, w, step).rows == w.rows
  {
  }

  /** A publication that waits for a later attempt stays as it is until then, whatever runs. */
  lemma {:induction false} NotPublishedEarly(cfg: BundleConfig, w: World, steps: seq<Step>, key: BundleKey)
    requires key in w.rows && Waiting(w.rows[key])
    ensures
      var w' := Run(cfg, w, steps);
      w'.now < w.rows[key].nextAttemptAt ==> key in w'.rows && w'.rows[key] == w.rows[key]
    decreases |steps|
  {
    if steps != [] {
      var w1 := Apply(cfg, w, steps[0]);
      StepKeepsClock(cfg, w, steps[0]);
      RunKeepsClock(cfg, w1, steps[1..]);
      if w.now < w.rows[key].nextAttemptAt {
        StepKeepsWaiting(cfg, w, steps[0], key);
        NotPublishedEarly(cfg, w1, steps[1..], key);
      }
    }
  }

  // ------------------------------------------------------------------ from end to end

  /** The row's staged object is there, as the row describes it. */
  predicate Publishable(w: World, key: BundleKey)
  {
    && key in w.rows && Due(w.rows[key], w.now) && key !in w.finals
    && w.rows[key].staging.value in w.staged
    && w.staged[w.rows[key].staging.value].content == Object(key.digest, w.rows[key].size)
  }

  function PublicationRun(key: BundleKey, lease: nat, n: nat): seq<Step>
  {
    [Promoting(Claim(key, lease)), Promoting(Copy(n)), Promoting(CopyLands(n)), Promoting(Verify(n)),
     Promoting(Complete(n))]
  }

  /** A promoter that is not disturbed makes a publishable bundle READY, and its final object is stored. */
  lemma PublicationSucceeds(cfg: BundleConfig, w: World, key: BundleKey, lease: nat)
    requires Publishable(w, key) && lease > 0
    ensures
      var w' := Run(cfg, w, PublicationRun(key, lease, w.nextToken));
      && key in w'.rows && w'.rows[key].status == Ready && w'.rows[key].readyAt == Some(w.now)
      && key in w'.finals && w'.finals[key] == Object(key.digest, w.rows[key].size)
  {
    var n := w.nextToken;
    var steps := PublicationRun(key, lease, n);
    var w1 := Apply(cfg, w, steps[0]);
    ClaimAnswer(cfg, w, key, lease);
    var w2 := Apply(cfg, w1, steps[1]);
    var w3 := Apply(cfg, w2, steps[2]);
    var w4 := Apply(cfg, w3, steps[3]);
    CopySucceeds(cfg, w1, n, w2, w3, w4);
    CompleteAnswer(cfg, w4, n);
    CompleteKeepsFinals(cfg, w4, n);
    FiveSteps(cfg, w, steps, w1, w2, w3, w4, Apply(cfg, w4, steps[4]));
  }

  lemma CompleteKeepsFinals(cfg: BundleConfig, w: World, n: nat)
    ensures PromotionStep(cfg, w, Complete(n)).finals == w.finals
  {
  }

  /** From the claim to the verified copy. */
  lemma CopySucceeds(cfg: BundleConfig, w: World, n: nat, w1: World, w2: World, w3: World)
    requires PromotionIn(w, n, Claimed) && w.promotions[n].staging in w.staged
    requires
      var p := w.promotions[n];
      w.staged[p.staging].content == Object(p.key.digest, p.size)
    requires w1 == PromotionStep(cfg, w, Copy(n)) && w2 == PromotionStep(cfg, w1, CopyLands(n))
    requires w3 == PromotionStep(cfg, w2, Verify(n))
    ensures
      var p := w.promotions[n];
      w3 == w.(promotions := w.promotions[n := p.(phase := Promoted, copyIssued := true)],
               finals := w.finals[p.key := Object(p.key.digest, p.size)])
  {
    var p := w.promotions[n];
    assert w1 == w.(promotions := w.promotions[n := p.(phase := Copying, copyIssued := true)]);
    assert w2 == w1.(finals := w1.finals[p.key := Object(p.key.digest, p.size)]);
  }

  lemma FiveSteps(
    cfg: BundleConfig, w: World, steps: seq<Step>, w1: World, w2: World, w3: World, w4: World, w5: World)
    requires |steps| == 5 && w1 == Apply(cfg, w, steps[0]) && w2 == Apply(cfg, w1, steps[1])
    requires w3 == Apply(cfg, w2, steps[2]) && w4 == Apply(cfg, w3, steps[3]) && w5 == Apply(cfg, w4, steps[4])
    ensures Run(cfg, w, steps) == w5
  {
    assert Run(cfg, w4, steps[4..]) == w5 by { assert steps[4..][1..] == []; }
    assert Run(cfg, w3, steps[3..]) == w5 by { assert steps[3..][1..] == steps[4..]; }
    assert Run(cfg, w2, steps[2..]) == w5 by { assert steps[2..][1..] == steps[3..]; }
    assert Run(cfg, w1, steps[1..]) == w5 by { assert steps[1..][1..] == steps[2..]; }
  }

  predicate IsGarbage(cfg: BundleConfig, w: World, id: StagingId)
  {
    && id in w.staged && w.staged[id].modifiedAt + cfg.garbageAge < w.now
    && forall key :: key in w.rows && w.rows[key].staging == Some(id) ==>
         w.rows[key].status != Pending && w.rows[key].status != Publishing
  }

  function CollectionRun(id: StagingId, n: nat): seq<Step>
  {
    [Collecting(List(id)), Collecting(Check(n)), Collecting(Check(n)), Collecting(Discard(n)),
     Collecting(DiscardReturns(n))]
  }

  /** The collector takes a staged object exactly if it is old and no live row refers to it, and takes nothing else. */
  lemma GarbageIsCollected(cfg: BundleConfig, w: World, id: StagingId)
    requires BundleInv(cfg, w)
    ensures
      var w' := Run(cfg, w, CollectionRun(id, w.nextToken));
      w'.staged == (if IsGarbage(cfg, w, id) then w.staged - {id} else w.staged)
  {
    var n := w.nextToken;
    var steps := CollectionRun(id, n);
    assert n in w.collections ==> CollectionOk(cfg, w, n);
    var w1 := CollectionStep(cfg, w, List(id));
    var w2 := CollectionStep(cfg, w1, Check(n));
    var w3 := CollectionStep(cfg, w2, Check(n));
    var w4 := CollectionStep(cfg, w3, Discard(n));
    var w5 := CollectionStep(cfg, w4, DiscardReturns(n));
    FiveSteps(cfg, w, steps, w1, w2, w3, w4, w5);
    if id in w.staged && w.staged[id].modifiedAt + cfg.garbageAge < w.now {
      ListedIsDecided(cfg, w1, n, id, w2, w3, w4, w5);
      ReferencedIsNotGarbage(cfg, w, w1, id);
    } else {
      NothingIsCollected(cfg, w, n);
    }
  }

  lemma ReferencedIsNotGarbage(cfg: BundleConfig, w: World, w1: World, id: StagingId)
    requires id in w.staged && w.staged[id].modifiedAt + cfg.garbageAge < w.now && w1.rows == w.rows
    ensures Referenced(w1, id) <==> !IsGarbage(cfg, w, id)
  {
  }

  lemma NothingIsCollected(cfg: BundleConfig, w: World, n: nat)
    requires n !in w.collections
    ensures CollectionStep(cfg, w, Check(n)) == w && CollectionStep(cfg, w, Discard(n)) == w
    ensures CollectionStep(cfg, w, DiscardReturns(n)) == w
  {
  }

  /** A listed key goes if and only if no live row refers to it. */
  lemma ListedIsDecided(
    cfg: BundleConfig, w: World, n: nat, id: StagingId, w1: World, w2: World, w3: World, w4: World)
    requires n in w.collections && w.collections[n] == Collection(id, Listed)
    requires w1 == CollectionStep(cfg, w, Check(n)) && w2 == CollectionStep(cfg, w1, Check(n))
    requires w3 == CollectionStep(cfg, w2, Discard(n)) && w4 == CollectionStep(cfg, w3, DiscardReturns(n))
    ensures w4.staged == if Referenced(w, id) then w.staged else w.staged - {id}
  {
    CheckedListing(cfg, w, n, w1);
    if Referenced(w, id) {
      SkippedListing(cfg, w1, n, w2, w3, w4);
    } else {
      CheckedListing(cfg, w1, n, w2);
      DiscardedListing(cfg, w2, n, w3, w4);
    }
  }

  lemma SkippedListing(cfg: BundleConfig, w: World, n: nat, w1: World, w2: World, w3: World)
    requires n in w.collections && w.collections[n].phase == Skipped && w1 == CollectionStep(cfg, w, Check(n))
    requires w2 == CollectionStep(cfg, w1, Discard(n)) && w3 == CollectionStep(cfg, w2, DiscardReturns(n))
    ensures w3 == w
  {
    assert w1 == w;
    assert w2 == w;
  }

  lemma CheckedListing(cfg: BundleConfig, w: World, n: nat, w1: World)
    requires n in w.collections && (w.collections[n].phase == Listed || w.collections[n].phase == CheckedOnce)
    requires w1 == CollectionStep(cfg, w, Check(n))
    ensures
      var id := w.collections[n].staging;
      && (Referenced(w1, id) <==> Referenced(w, id))
      && w1 == w.(collections := w.collections[n := Collection(
           id, if Referenced(w, id) then Skipped else if w.collections[n].phase == Listed then CheckedOnce
               else CheckedTwice)])
  {
  }

  lemma DiscardedListing(cfg: BundleConfig, w: World, n: nat, w1: World, w2: World)
    requires n in w.collections && w.collections[n].phase == CheckedTwice
    requires w1 == CollectionStep(cfg, w, Discard(n)) && w2 == CollectionStep(cfg, w1, DiscardReturns(n))
    ensures w2.staged == w.staged - {w.collections[n].staging}
  {
  }
}
