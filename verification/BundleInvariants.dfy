/** What every step of bundle publication keeps. */
module BundleInvariants {
  import opened Options
  import opened Events
  import opened Bundles

  predicate Live(row: BundleRow)
  {
    row.status == Pending || row.status == Publishing
  }

  /**
   * A row refers to the staged object of the upload that published it, or was migrated and never uploaded again; READY
   * means stored.
   */
  predicate RowOk(w: World, key: BundleKey)
    requires key in w.rows
  {
    var row := w.rows[key];
    && (row.staging == None ==> row.status == Pending || row.status == Abandoned)
    && (row.staging.Some? ==>
          && UploadIn(w, row.staging.value, Published)
          && w.uploads[row.staging.value].key == key
          && (Live(row) ==> row.staging.value !in w.doomed))
    && (row.status == Ready ==> key in w.finals && w.finals[key] == Object(key.digest, row.size))
    && (row.status == Publishing <==> row.token.Some?)
    && (row.token.Some? <==> row.leaseUntil.Some?)
    && (row.token.Some? ==>
          && row.token.value in w.promotions
          && w.promotions[row.token.value].key == key
          && Some(w.promotions[row.token.value].staging) == row.staging)
    && (row.readyAt.Some? <==> row.status == Ready)
    && (row.abandonedAt.Some? <==> row.status == Abandoned)
  }

  ghost predicate RowsOk(w: World)
  {
    forall key :: key in w.rows ==> RowOk(w, key)
  }

  /** An upload that can no longer get its key referenced. */
  predicate Spent(cfg: BundleConfig, up: Upload, now: Time)
  {
    up.phase == Published || up.phase == Unused || up.phase == Gone || up.startedAt + cfg.operationTimeout <= now
  }

  predicate UploadOk(cfg: BundleConfig, w: World, id: StagingId)
    requires id in w.uploads
  {
    var up := w.uploads[id];
    && id < w.nextUpload
    && up.startedAt <= w.now
    && (up.landed && id !in w.doomed ==> id in w.staged)
    && (id in w.staged ==>
          && up.landed && up.startedAt <= w.staged[id].modifiedAt
          && w.staged[id].content == Object(up.key.digest, up.size))
    && (up.phase == Staged || up.phase == Published || up.phase == Unused ==> up.landed)
    && (up.phase == Begun ==> !up.landed)
  }

  ghost predicate UploadsOk(cfg: BundleConfig, w: World)
  {
    && (forall id :: id in w.uploads ==> UploadOk(cfg, w, id))
    && (forall id :: id in w.staged ==> id in w.uploads)
  }

  /** No live row refers to this staged object. */
  ghost predicate Unneeded(w: World, id: StagingId)
  {
    forall key :: key in w.rows && w.rows[key].staging == Some(id) ==> !Live(w.rows[key])
  }

  /** Discards are only issued for objects that no live row refers to and no upload can still publish. */
  ghost predicate DoomedOk(cfg: BundleConfig, w: World, id: StagingId)
  {
    id in w.uploads && Spent(cfg, w.uploads[id], w.now) && Unneeded(w, id)
  }

  predicate PromotionOk(w: World, n: nat)
    requires n in w.promotions
  {
    var p := w.promotions[n];
    && n < w.nextToken
    && p.key in w.rows && p.size == w.rows[p.key].size
    && UploadIn(w, p.staging, Published) && w.uploads[p.staging].key == p.key
    && (p.phase == Promoted ==> p.key in w.finals)
    && (p.phase == Completed ==> w.rows[p.key].status == Ready)
    && (p.phase == GivenUp ==> w.rows[p.key].staging != Some(p.staging) || !Live(w.rows[p.key]))
  }

  ghost predicate CollectionOk(cfg: BundleConfig, w: World, n: nat)
    requires n in w.collections
  {
    var c := w.collections[n];
    && n < w.nextToken
    && c.staging in w.uploads
    && w.uploads[c.staging].startedAt + cfg.operationTimeout <= w.now
    && (c.phase == CheckedOnce || c.phase == CheckedTwice || c.phase == Discarding || c.phase == Discarded ==>
          Unneeded(w, c.staging))
    && (c.phase == Discarding ==> c.staging in w.doomed)
  }

  /** The content address of a row holds nothing but the row's content. */
  predicate FinalOk(w: World, key: BundleKey)
    requires key in w.finals
  {
    key in w.rows && w.finals[key] == Object(key.digest, w.rows[key].size)
  }

  ghost predicate WorkersOk(cfg: BundleConfig, w: World)
  {
    && (forall id :: id in w.doomed ==> DoomedOk(cfg, w, id))
    && (forall n :: n in w.promotions ==> PromotionOk(w, n))
    && (forall n :: n in w.collections ==> CollectionOk(cfg, w, n))
    && (forall key :: key in w.finals ==> FinalOk(w, key))
  }

  ghost predicate BundleInv(cfg: BundleConfig, w: World)
  {
    RowsOk(w) && UploadsOk(cfg, w) && WorkersOk(cfg, w)
  }

  lemma InitialInv(cfg: BundleConfig, w: World)
    requires Initial(w)
    ensures BundleInv(cfg, w)
  {
  }

  // -------------------------------------------------------------------- uploads

  /** An upload's own change: its record, its staged object, its doom. */
  predicate OwnChange(w: World, w': World, id: StagingId)
  {
    && w'.now == w.now && w'.rows == w.rows && w'.finals == w.finals && w'.promotions == w.promotions
    && w'.collections == w.collections
    && w'.nextToken == w.nextToken && w.nextUpload <= w'.nextUpload
    && id in w'.uploads && w'.uploads == w.uploads[id := w'.uploads[id]]
    && (id in w.uploads ==>
          && w.uploads[id].phase != Published && w'.uploads[id].key == w.uploads[id].key
          && w'.uploads[id].startedAt == w.uploads[id].startedAt)
    && w'.staged - {id} == w.staged - {id}
    && w'.doomed - {id} == w.doomed - {id} && w.doomed <= w'.doomed
  }

  lemma OwnChangeKeepsInv(cfg: BundleConfig, w: World, w': World, id: StagingId)
    requires BundleInv(cfg, w) && OwnChange(w, w', id) && UploadOk(cfg, w', id) && w'.uploads[id].phase != Published
    requires id in w'.doomed ==> Spent(cfg, w'.uploads[id], w'.now)
    ensures BundleInv(cfg, w')
  {
    OwnUploads(cfg, w, w', id);
    forall key | key in w'.rows ensures RowOk(w', key) {
      assert RowOk(w, key);
      var staging := w.rows[key].staging;
      assert staging.Some? && staging.value in w'.doomed ==> staging.value in w'.doomed - {id};
    }
    OwnWorkers(cfg, w, w', id);
  }

  lemma OwnUploads(cfg: BundleConfig, w: World, w': World, id: StagingId)
    requires BundleInv(cfg, w) && OwnChange(w, w', id) && UploadOk(cfg, w', id)
    ensures UploadsOk(cfg, w')
  {
    forall i | i in w'.uploads && i != id ensures UploadOk(cfg, w', i) {
      assert UploadOk(cfg, w, i);
      assert i in w'.staged <==> i in w'.staged - {id};
      assert i in w.staged <==> i in w.staged - {id};
      assert i in w'.staged ==> (w'.staged - {id})[i] == w'.staged[i] && (w.staged - {id})[i] == w.staged[i];
      assert i in w.doomed <==> i in w.doomed - {id};
      assert i in w'.doomed <==> i in w'.doomed - {id};
    }
    forall i | i in w'.staged ensures i in w'.uploads {
      assert i != id ==> i in w'.staged - {id};
    }
  }

  lemma OwnWorkers(cfg: BundleConfig, w: World, w': World, id: StagingId)
    requires BundleInv(cfg, w) && OwnChange(w, w', id)
    requires id in w'.doomed ==> Spent(cfg, w'.uploads[id], w'.now)
    ensures WorkersOk(cfg, w')
  {
    forall i | i in w'.doomed ensures DoomedOk(cfg, w', i) {
      if i == id {
        forall key | key in w'.rows
          ensures w'.rows[key].staging != Some(id) || !Live(w'.rows[key])
        {
          assert RowOk(w, key);
        }
      } else {
        assert i in w'.doomed - {id};
        assert DoomedOk(cfg, w, i);
      }
    }
    forall n | n in w'.promotions ensures PromotionOk(w', n) { assert PromotionOk(w, n); }
    forall n | n in w'.collections ensures CollectionOk(cfg, w', n) { assert CollectionOk(cfg, w, n); }
    forall key | key in w'.finals ensures FinalOk(w', key) { assert FinalOk(w, key); }
  }

  lemma UploadStepKeepsInv(cfg: BundleConfig, w: World, step: UploadMove, w': World)
    requires BundleInv(cfg, w) && w' == UploadStep(cfg, w, step) && !step.Commit?
    ensures BundleInv(cfg, w')
  {
    if w' != w {
      var id := if step.Begin? then w.nextUpload else step.id;
      assert id in w.uploads ==> UploadOk(cfg, w, id);
      assert id in w.staged ==> id in w.uploads;
      assert id in w.doomed ==> DoomedOk(cfg, w, id);
      OwnChangeKeepsInv(cfg, w, w', id);
    }
  }

  // --------------------------------------------------------------------- commit

  /** A new or revived row refers to the committing upload's own staged object. */
  predicate Publishes(w: World, w': World, id: StagingId, row: BundleRow)
    requires id in w.uploads
  {
    var key := w.uploads[id].key;
    && row.staging == Some(id) && row.status == Pending && row.token == None && row.leaseUntil == None
    && row.readyAt == None && row.abandonedAt == None
    && (key in w.rows ==>
          NeedsFreshStaging(w.rows[key]) && row.size == w.rows[key].size && row.createdAt == w.rows[key].createdAt)
    && (key !in w.rows ==> row.size == w.uploads[id].size)
    && w' == w.(
      rows := w.rows[key := row], records := w'.records, uploads := w.uploads[id := w.uploads[id].(phase := Published)])
  }

  lemma PublishKeepsInv(cfg: BundleConfig, w: World, w': World, id: StagingId, row: BundleRow)
    requires BundleInv(cfg, w) && UploadIn(w, id, Staged) && w.now < w.uploads[id].startedAt + cfg.operationTimeout
    requires Publishes(w, w', id, row)
    ensures BundleInv(cfg, w')
  {
    var key := w.uploads[id].key;
    assert id in w.doomed ==> DoomedOk(cfg, w, id);
    forall k | k in w'.rows ensures RowOk(w', k) {
      if k != key { assert RowOk(w, k); }
    }
    forall i | i in w'.uploads ensures UploadOk(cfg, w', i) { assert UploadOk(cfg, w, i); }
    PublishWorkers(cfg, w, w', id, row);
  }

  lemma PublishWorkers(cfg: BundleConfig, w: World, w': World, id: StagingId, row: BundleRow)
    requires BundleInv(cfg, w) && UploadIn(w, id, Staged) && w.now < w.uploads[id].startedAt + cfg.operationTimeout
    requires Publishes(w, w', id, row)
    ensures WorkersOk(cfg, w')
  {
    var key := w.uploads[id].key;
    forall i | i != id && Unneeded(w, i) ensures Unneeded(w', i) {}
    forall i | i in w'.doomed ensures DoomedOk(cfg, w', i) { assert DoomedOk(cfg, w, i); }
    forall n | n in w'.promotions ensures PromotionOk(w', n) { assert PromotionOk(w, n); }
    forall n | n in w'.collections ensures CollectionOk(cfg, w', n) { assert CollectionOk(cfg, w, n); }
    forall k | k in w'.finals ensures FinalOk(w', k) { assert FinalOk(w, k); }
  }

  lemma CommitEffect(cfg: BundleConfig, w: World, id: StagingId, admissible: bool, w': World)
    requires UploadIn(w, id, Staged) && w.now < w.uploads[id].startedAt + cfg.operationTimeout
    requires w.uploads[id].key in w.rows ==> w.rows[w.uploads[id].key].staging != Some(id)
    requires w' == UploadStep(cfg, w, Commit(id, admissible))
    ensures
      || (w.uploads[id].key in w'.rows && Publishes(w, w', id, w'.rows[w.uploads[id].key]))
      || w' == w.(records := w'.records, uploads := w.uploads[id := w.uploads[id].(phase := Unused)])
  {
  }

  lemma CommitKeepsInv(cfg: BundleConfig, w: World, step: UploadMove, w': World)
    requires BundleInv(cfg, w) && step.Commit? && w' == UploadStep(cfg, w, step)
    ensures BundleInv(cfg, w')
  {
    if w' != w {
      var id := step.id;
      var key := w.uploads[id].key;
      assert UploadOk(cfg, w, id);
      assert key in w.rows ==> RowOk(w, key);
      CommitEffect(cfg, w, id, step.admissible, w');
      if key in w'.rows && Publishes(w, w', id, w'.rows[key]) {
        PublishKeepsInv(cfg, w, w', id, w'.rows[key]);
      } else {
        UnusedKeepsInv(cfg, w, id, w');
      }
    }
  }

  /** An upload that lost to an earlier one, or was rejected. */
  lemma UnusedKeepsInv(cfg: BundleConfig, w: World, id: StagingId, w': World)
    requires BundleInv(cfg, w) && UploadIn(w, id, Staged)
    requires w' == w.(records := w'.records, uploads := w.uploads[id := w.uploads[id].(phase := Unused)])
    ensures BundleInv(cfg, w')
  {
    assert UploadOk(cfg, w, id);
    OwnChangeKeepsInv(cfg, w, w', id);
  }

  // ------------------------------------------------------------------- promotion

  /** Claiming changes the row's token, never what it refers to. */
  lemma ClaimKeepsInv(cfg: BundleConfig, w: World, key: BundleKey, lease: nat, w': World)
    requires BundleInv(cfg, w) && w' == ClaimTx(w, key, lease) && w' != w
    ensures BundleInv(cfg, w')
  {
    assert RowOk(w, key);
    forall k | k in w'.rows ensures RowOk(w', k) { assert RowOk(w, k); }
    forall i | i in w'.uploads ensures UploadOk(cfg, w', i) { assert UploadOk(cfg, w, i); }
    ClaimWorkers(cfg, w, key, lease, w');
  }

  lemma ClaimWorkers(cfg: BundleConfig, w: World, key: BundleKey, lease: nat, w': World)
    requires BundleInv(cfg, w) && w' == ClaimTx(w, key, lease) && w' != w
    ensures WorkersOk(cfg, w')
  {
    assert RowOk(w, key);
    forall i | Unneeded(w, i) ensures Unneeded(w', i) {}
    forall i | i in w'.doomed ensures DoomedOk(cfg, w', i) { assert DoomedOk(cfg, w, i); }
    forall n | n in w'.promotions ensures PromotionOk(w', n) {
      if n != w.nextToken { assert PromotionOk(w, n); }
    }
    forall n | n in w'.collections ensures CollectionOk(cfg, w', n) { assert CollectionOk(cfg, w, n); }
    forall k | k in w'.finals ensures FinalOk(w', k) { assert FinalOk(w, k); }
  }

  /** A promoter's progress that leaves all rows alone; a copy writes the row's own content. */
  lemma ProgressKeepsInv(cfg: BundleConfig, w: World, w': World, n: nat)
    requires BundleInv(cfg, w) && n in w.promotions && n in w'.promotions
    requires w' == w.(promotions := w.promotions[n := w'.promotions[n]], finals := w'.finals)
    requires w'.promotions[n] == w.promotions[n].(
      phase := w'.promotions[n].phase, copyIssued := w'.promotions[n].copyIssued)
    requires
      var key := w.promotions[n].key;
      w'.finals == w.finals || w'.finals == w.finals[key := Object(key.digest, w.promotions[n].size)]
    requires PromotionOk(w', n)
    ensures BundleInv(cfg, w')
  {
    assert PromotionOk(w, n);
    forall k | k in w'.finals ensures FinalOk(w', k) { assert k in w.finals ==> FinalOk(w, k); }
    forall k | k in w'.rows ensures RowOk(w', k) { assert RowOk(w, k); }
    forall i | i in w'.uploads ensures UploadOk(cfg, w', i) { assert UploadOk(cfg, w, i); }
    forall i | i in w'.doomed ensures DoomedOk(cfg, w', i) { assert DoomedOk(cfg, w, i); }
    forall m | m in w'.promotions ensures PromotionOk(w', m) {
      if m != n { assert PromotionOk(w, m); }
    }
    forall m | m in w'.collections ensures CollectionOk(cfg, w', m) { assert CollectionOk(cfg, w, m); }
  }

  /** Settling a promotion under its fence: READY needs the stored object, nothing else ever becomes live again. */
  lemma SettleKeepsInv(cfg: BundleConfig, w: World, w': World, n: nat, row: BundleRow)
    requires BundleInv(cfg, w) && n in w.promotions && n in w'.promotions && Holds(w, w.promotions[n].key, n)
    requires w' == w.(
      promotions := w.promotions[n := w.promotions[n].(phase := w'.promotions[n].phase)],
      rows := w.rows[w.promotions[n].key := row])
    requires w'.promotions[n].phase != Promoted
    requires RowOk(w', w.promotions[n].key) && PromotionOk(w', n)
    requires row.size == w.rows[w.promotions[n].key].size && row.staging == w.rows[w.promotions[n].key].staging
    requires row.token == None
    ensures BundleInv(cfg, w')
  {
    var key := w.promotions[n].key;
    assert RowOk(w, key);
    forall i | Unneeded(w, i) ensures Unneeded(w', i) {
      assert Live(w.rows[key]);
    }
    forall k | k in w'.rows ensures RowOk(w', k) {
      if k != key { assert RowOk(w, k); }
    }
    forall i | i in w'.uploads ensures UploadOk(cfg, w', i) { assert UploadOk(cfg, w, i); }
    SettledWorkers(cfg, w, w', n, row);
  }

  lemma SettledWorkers(cfg: BundleConfig, w: World, w': World, n: nat, row: BundleRow)
    requires BundleInv(cfg, w) && n in w.promotions && n in w'.promotions && Holds(w, w.promotions[n].key, n)
    requires w' == w.(
      promotions := w.promotions[n := w.promotions[n].(phase := w'.promotions[n].phase)],
      rows := w.rows[w.promotions[n].key := row])
    requires PromotionOk(w', n)
    requires row.size == w.rows[w.promotions[n].key].size && row.staging == w.rows[w.promotions[n].key].staging
    ensures WorkersOk(cfg, w')
  {
    var key := w.promotions[n].key;
    forall i | Unneeded(w, i) ensures Unneeded(w', i) {
      assert Live(w.rows[key]);
    }
    forall i | i in w'.doomed ensures DoomedOk(cfg, w', i) { assert DoomedOk(cfg, w, i); }
    forall m | m in w'.promotions ensures PromotionOk(w', m) {
      if m != n { assert PromotionOk(w, m); }
    }
    forall m | m in w'.collections ensures CollectionOk(cfg, w', m) { assert CollectionOk(cfg, w, m); }
    forall k | k in w'.finals ensures FinalOk(w', k) { assert FinalOk(w, k); }
  }

  /** A promoter that lost its fence only takes note of it. */
  lemma LostKeepsInv(cfg: BundleConfig, w: World, n: nat, w': World)
    requires BundleInv(cfg, w) && n in w.promotions && w' == MovePromotion(w, n, Over)
    ensures BundleInv(cfg, w')
  {
    assert PromotionOk(w, n);
    ProgressKeepsInv(cfg, w, w', n);
  }

  lemma CompleteKeepsInv(cfg: BundleConfig, w: World, n: nat, w': World)
    requires BundleInv(cfg, w) && w' == PromotionStep(cfg, w, Complete(n)) && w' != w
    ensures BundleInv(cfg, w')
  {
    assert PromotionOk(w, n);
    var key := w.promotions[n].key;
    if Holds(w, key, n) {
      assert RowOk(w, key) && FinalOk(w, key);
      SettleKeepsInv(cfg, w, w', n, w'.rows[key]);
    } else {
      LostKeepsInv(cfg, w, n, w');
    }
  }

  lemma FailKeepsInv(cfg: BundleConfig, w: World, n: nat, nextAttempt: Time, w': World)
    requires BundleInv(cfg, w) && w' == PromotionStep(cfg, w, Fail(n, nextAttempt)) && w' != w
    ensures BundleInv(cfg, w')
  {
    FailEffect(cfg, w, n, nextAttempt, w');
    if Holds(w, w.promotions[n].key, n) {
      HeldFailKeepsInv(cfg, w, n, nextAttempt, w.promotions[n].attemptCount >= cfg.maxPublishAttempts, w');
    } else {
      LostKeepsInv(cfg, w, n, w');
    }
  }

  lemma FailEffect(cfg: BundleConfig, w: World, n: nat, nextAttempt: Time, w': World)
    requires w' == PromotionStep(cfg, w, Fail(n, nextAttempt)) && w' != w
    ensures PromotionIn(w, n, Broken)
    ensures
      var abandoned := w.promotions[n].attemptCount >= cfg.maxPublishAttempts;
      if Holds(w, w.promotions[n].key, n)
      then
        w' == MovePromotion(w, n, if abandoned then GivenUp else Over)
                .(rows := FailTx(w.rows, w.promotions[n].key, nextAttempt, abandoned))
      else w' == MovePromotion(w, n, Over)
  {
  }

  lemma HeldFailKeepsInv(cfg: BundleConfig, w: World, n: nat, nextAttempt: Time, abandoned: bool, w': World)
    requires BundleInv(cfg, w) && PromotionIn(w, n, Broken) && Holds(w, w.promotions[n].key, n)
    requires w' == MovePromotion(w, n, if abandoned then GivenUp else Over)
                     .(rows := FailTx(w.rows, w.promotions[n].key, nextAttempt, abandoned))
    ensures BundleInv(cfg, w')
  {
    var key := w.promotions[n].key;
    assert PromotionOk(w, n) && RowOk(w, key);
    var row := w'.rows[key];
    assert RowOk(w', key);
    assert PromotionOk(w', n);
    SettleKeepsInv(cfg, w, w', n, row);
  }

  /** Dooming an object that no live row needs and no upload can publish. */
  lemma DoomKeepsInv(cfg: BundleConfig, w: World, w': World, id: StagingId)
    requires BundleInv(cfg, w) && w' == w.(doomed := w.doomed + {id}, collections := w'.collections)
    requires DoomedOk(cfg, w, id) && forall n :: n in w'.collections ==> CollectionOk(cfg, w', n)
    ensures BundleInv(cfg, w')
  {
    forall i | Unneeded(w, i) ensures Unneeded(w', i) {}
    forall k | k in w'.rows ensures RowOk(w', k) { assert RowOk(w, k); }
    forall i | i in w'.uploads ensures UploadOk(cfg, w', i) { assert UploadOk(cfg, w, i); }
    forall i | i in w'.doomed ensures DoomedOk(cfg, w', i) { assert DoomedOk(cfg, w, i); }
    forall n | n in w'.promotions ensures PromotionOk(w', n) { assert PromotionOk(w, n); }
    forall k | k in w'.finals ensures FinalOk(w', k) { assert FinalOk(w, k); }
  }

  /** Only the row a staging key was published for can refer to it. */
  lemma OneRowPerStagingKey(cfg: BundleConfig, w: World, id: StagingId, key: BundleKey)
    requires BundleInv(cfg, w) && key in w.rows && w.rows[key].staging == Some(id)
    ensures id in w.uploads && w.uploads[id].key == key
  {
  }

  lemma DiscardPromotedKeepsInv(cfg: BundleConfig, w: World, n: nat, w': World)
    requires BundleInv(cfg, w) && w' == PromotionStep(cfg, w, DiscardPromoted(n)) && w' != w
    ensures BundleInv(cfg, w')
  {
    var p := w.promotions[n];
    assert PromotionOk(w, n);
    forall key | key in w.rows ensures w.rows[key].staging == Some(p.staging) ==> !Live(w.rows[key]) {
      assert RowOk(w, key);
    }
    forall m | m in w'.collections ensures CollectionOk(cfg, w', m) {
      assert CollectionOk(cfg, w, m);
      assert Unneeded(w, w.collections[m].staging) ==> Unneeded(w', w.collections[m].staging);
    }
    DoomKeepsInv(cfg, w, w', p.staging);
  }

  lemma ProgressStepKeepsInv(cfg: BundleConfig, w: World, step: PromotionMove, n: nat, w': World)
    requires BundleInv(cfg, w) && w' == PromotionStep(cfg, w, step) && w' != w
    requires
      || (step.FindFinal? && step.n == n) || (step.Copy? && step.n == n) || (step.Verify? && step.n == n)
      || (step.Break? && step.n == n)
    ensures BundleInv(cfg, w')
  {
    assert PromotionOk(w, n);
    ProgressKeepsInv(cfg, w, w', n);
  }

  lemma CopyLandsKeepsInv(cfg: BundleConfig, w: World, n: nat, w': World)
    requires BundleInv(cfg, w) && w' == PromotionStep(cfg, w, CopyLands(n)) && w' != w
    ensures BundleInv(cfg, w')
  {
    assert PromotionOk(w, n);
    assert w.promotions == w.promotions[n := w.promotions[n]];
    ProgressKeepsInv(cfg, w, w', n);
  }

  lemma PromotionStepKeepsInv(cfg: BundleConfig, w: World, step: PromotionMove, w': World)
    requires BundleInv(cfg, w) && w' == PromotionStep(cfg, w, step)
    ensures BundleInv(cfg, w')
  {
    if w' != w {
      match step
      case Claim(key, lease) => ClaimKeepsInv(cfg, w, key, lease, w');
      case FindFinal(n) => ProgressStepKeepsInv(cfg, w, step, n, w');
      case Copy(n) => ProgressStepKeepsInv(cfg, w, step, n, w');
      case CopyLands(n) => CopyLandsKeepsInv(cfg, w, n, w');
      case Verify(n) => ProgressStepKeepsInv(cfg, w, step, n, w');
      case Break(n) => ProgressStepKeepsInv(cfg, w, step, n, w');
      case Complete(n) => CompleteKeepsInv(cfg, w, n, w');
      case Fail(n, nextAttempt) => FailKeepsInv(cfg, w, n, nextAttempt, w');
      case DiscardPromoted(n) => DiscardPromotedKeepsInv(cfg, w, n, w');
    }
  }

  // ------------------------------------------------------------------- collector

  lemma UnreferencedIsUnneeded(w: World, id: StagingId)
    ensures !Referenced(w, id) ==> Unneeded(w, id)
  {
  }

  /** The collector's notes: a listed object is too old for its upload to commit. */
  lemma NoteKeepsInv(cfg: BundleConfig, w: World, w': World)
    requires BundleInv(cfg, w) && w' == w.(collections := w'.collections, nextToken := w'.nextToken)
    requires w.nextToken <= w'.nextToken
    requires forall n :: n in w'.collections ==> CollectionOk(cfg, w', n)
    ensures BundleInv(cfg, w')
  {
    forall i | Unneeded(w, i) ensures Unneeded(w', i) {}
    forall k | k in w'.rows ensures RowOk(w', k) { assert RowOk(w, k); }
    forall i | i in w'.uploads ensures UploadOk(cfg, w', i) { assert UploadOk(cfg, w, i); }
    forall i | i in w'.doomed ensures DoomedOk(cfg, w', i) { assert DoomedOk(cfg, w, i); }
    forall n | n in w'.promotions ensures PromotionOk(w', n) { assert PromotionOk(w, n); }
    forall k | k in w'.finals ensures FinalOk(w', k) { assert FinalOk(w, k); }
  }

  lemma ListKeepsInv(cfg: BundleConfig, w: World, id: StagingId, w': World)
    requires ValidBundleConfig(cfg) && BundleInv(cfg, w) && w' == CollectionStep(cfg, w, List(id)) && w' != w
    ensures BundleInv(cfg, w')
  {
    assert id in w.uploads && UploadOk(cfg, w, id);
    forall n | n in w'.collections ensures CollectionOk(cfg, w', n) {
      if n != w.nextToken {
        assert CollectionOk(cfg, w, n);
        assert Unneeded(w, w.collections[n].staging) ==> Unneeded(w', w.collections[n].staging);
      }
    }
    NoteKeepsInv(cfg, w, w');
  }

  lemma CheckKeepsInv(cfg: BundleConfig, w: World, n: nat, w': World)
    requires BundleInv(cfg, w) && w' == CollectionStep(cfg, w, Check(n)) && w' != w
    ensures BundleInv(cfg, w')
  {
    UnreferencedIsUnneeded(w, w.collections[n].staging);
    forall m | m in w'.collections ensures CollectionOk(cfg, w', m) {
      assert CollectionOk(cfg, w, m);
      assert Unneeded(w, w.collections[m].staging) ==> Unneeded(w', w.collections[m].staging);
    }
    NoteKeepsInv(cfg, w, w');
  }

  lemma DiscardKeepsInv(cfg: BundleConfig, w: World, n: nat, w': World)
    requires BundleInv(cfg, w) && w' == CollectionStep(cfg, w, Discard(n)) && w' != w
    ensures BundleInv(cfg, w')
  {
    assert CollectionOk(cfg, w, n);
    forall m | m in w'.collections ensures CollectionOk(cfg, w', m) {
      assert CollectionOk(cfg, w, m);
      assert Unneeded(w, w.collections[m].staging) ==> Unneeded(w', w.collections[m].staging);
    }
    DoomKeepsInv(cfg, w, w', w.collections[n].staging);
  }

  /** A discard that lands removes a doomed object. */
  lemma RemovalKeepsInv(cfg: BundleConfig, w: World, id: StagingId, w': World)
    requires BundleInv(cfg, w) && id in w.doomed && w' == w.(staged := w.staged - {id}, collections := w'.collections)
    requires forall n :: n in w'.collections ==> CollectionOk(cfg, w', n)
    ensures BundleInv(cfg, w')
  {
    forall i | Unneeded(w, i) ensures Unneeded(w', i) {}
    forall k | k in w'.rows ensures RowOk(w', k) { assert RowOk(w, k); }
    forall i | i in w'.uploads ensures UploadOk(cfg, w', i) { assert UploadOk(cfg, w, i); }
    forall i | i in w'.doomed ensures DoomedOk(cfg, w', i) { assert DoomedOk(cfg, w, i); }
    forall n | n in w'.promotions ensures PromotionOk(w', n) { assert PromotionOk(w, n); }
    forall k | k in w'.finals ensures FinalOk(w', k) { assert FinalOk(w, k); }
  }

  lemma CollectionStepKeepsInv(cfg: BundleConfig, w: World, step: CollectionMove, w': World)
    requires ValidBundleConfig(cfg) && BundleInv(cfg, w) && w' == CollectionStep(cfg, w, step)
    ensures BundleInv(cfg, w')
  {
    if w' != w {
      match step
      case List(id) => ListKeepsInv(cfg, w, id, w');
      case Check(n) => CheckKeepsInv(cfg, w, n, w');
      case Discard(n) => DiscardKeepsInv(cfg, w, n, w');
      case DiscardReturns(n) =>
        assert CollectionOk(cfg, w, n);
        SameCollections(cfg, w, w');
        RemovalKeepsInv(cfg, w, w.collections[n].staging, w');
    }
  }

  lemma SameCollections(cfg: BundleConfig, w: World, w': World)
    requires BundleInv(cfg, w) && w'.rows == w.rows && w'.uploads == w.uploads && w'.doomed == w.doomed
    requires w'.nextToken == w.nextToken && w.now <= w'.now
    requires w'.collections.Keys == w.collections.Keys
    requires forall n :: n in w.collections ==> w'.collections[n].staging == w.collections[n].staging
    requires forall n :: n in w.collections ==>
               || w'.collections[n].phase == w.collections[n].phase
               || (w.collections[n].phase == Discarding && w'.collections[n].phase == Discarded)
    ensures forall n :: n in w'.collections ==> CollectionOk(cfg, w', n)
  {
  }

  // ------------------------------------------------------------------- every run

  lemma TickKeepsInv(cfg: BundleConfig, w: World, w': World)
    requires BundleInv(cfg, w) && w.now <= w'.now && w' == w.(now := w'.now, records := w'.records)
    ensures BundleInv(cfg, w')
  {
    SameCollections(cfg, w, w');
    forall i | Unneeded(w, i) ensures Unneeded(w', i) {}
    forall k | k in w'.rows ensures RowOk(w', k) { assert RowOk(w, k); }
    forall i | i in w'.uploads ensures UploadOk(cfg, w', i) { assert UploadOk(cfg, w, i); }
    forall i | i in w'.doomed ensures DoomedOk(cfg, w', i) { assert DoomedOk(cfg, w, i); }
    forall n | n in w'.promotions ensures PromotionOk(w', n) { assert PromotionOk(w, n); }
    forall k | k in w'.finals ensures FinalOk(w', k) { assert FinalOk(w, k); }
  }

  /** The sweep abandons exactly the migrated rows that are old enough, and touches no other row. */
  lemma SweepAbandonsMigratedRows(cfg: BundleConfig, w: World, bundles: set<BundleKey>, before: Time, key: BundleKey)
    requires BundleInv(cfg, w) && key in w.rows
    ensures
      var row, after := w.rows[key], SweptRows(w, bundles, before)[key];
      if key in bundles && row.staging == None && row.status == Pending && row.createdAt < before
      then after == row.(status := Abandoned, abandonedAt := Some(w.now))
      else after == row
  {
    assert RowOk(w, key);
  }

  lemma SweepKeepsInv(cfg: BundleConfig, w: World, bundles: set<BundleKey>, before: Time, w': World)
    requires BundleInv(cfg, w) && w' == w.(rows := SweptRows(w, bundles, before))
    ensures BundleInv(cfg, w')
  {
    forall key | key in w'.rows ensures SweptOnly(w.rows[key], w'.rows[key], w.now) {
      SweepAbandonsMigratedRows(cfg, w, bundles, before, key);
    }
    forall key | key in w'.rows
      ensures RowOk(w', key)
    {
      assert RowOk(w, key) && SweptOnly(w.rows[key], w'.rows[key], w.now);
    }
    forall i | i in w'.uploads ensures UploadOk(cfg, w', i) { assert UploadOk(cfg, w, i); }
    SweptWorkers(cfg, w, w');
  }

  /** What the sweep may do to one row. */
  predicate SweptOnly(row: BundleRow, after: BundleRow, now: Time)
  {
    || after == row
    || (&& row.staging == None && row.status == Pending
        && after == row.(status := Abandoned, abandonedAt := Some(now)))
  }

  lemma SweptWorkers(cfg: BundleConfig, w: World, w': World)
    requires BundleInv(cfg, w) && w' == w.(rows := w'.rows) && w'.rows.Keys == w.rows.Keys
    requires forall key :: key in w.rows ==> SweptOnly(w.rows[key], w'.rows[key], w.now)
    ensures WorkersOk(cfg, w')
  {
    forall i: StagingId | Unneeded(w, i) ensures Unneeded(w', i) {
      forall key | key in w'.rows && w'.rows[key].staging == Some(i) ensures !Live(w'.rows[key]) {
        assert SweptOnly(w.rows[key], w'.rows[key], w.now);
      }
    }
    forall i | i in w'.doomed ensures DoomedOk(cfg, w', i) { assert DoomedOk(cfg, w, i); }
    forall n | n in w'.promotions ensures PromotionOk(w', n) {
      assert PromotionOk(w, n) && SweptOnly(w.rows[w.promotions[n].key], w'.rows[w.promotions[n].key], w.now);
    }
    forall n | n in w'.collections ensures CollectionOk(cfg, w', n) { assert CollectionOk(cfg, w, n); }
    forall k | k in w'.finals ensures FinalOk(w', k) {
      assert FinalOk(w, k) && SweptOnly(w.rows[k], w'.rows[k], w.now);
    }
  }

  lemma UploadMoveKeepsInv(cfg: BundleConfig, w: World, move: UploadMove)
    requires BundleInv(cfg, w)
    ensures BundleInv(cfg, UploadStep(cfg, w, move))
  {
    if move.Commit? {
      CommitKeepsInv(cfg, w, move, UploadStep(cfg, w, move));
    } else {
      UploadStepKeepsInv(cfg, w, move, UploadStep(cfg, w, move));
    }
  }

  lemma DiscardLandsKeepsInv(cfg: BundleConfig, w: World, id: StagingId, w': World)
    requires BundleInv(cfg, w) && w' == if id in w.doomed then w.(staged := w.staged - {id}) else w
    ensures BundleInv(cfg, w')
  {
    if id in w.doomed {
      SameCollections(cfg, w, w');
      RemovalKeepsInv(cfg, w, id, w');
    }
  }

  lemma StepKeepsInv(cfg: BundleConfig, w: World, step: Step)
    requires ValidBundleConfig(cfg) && BundleInv(cfg, w)
    ensures BundleInv(cfg, Apply(cfg, w, step))
  {
    match step
    case Uploading(move) => UploadMoveKeepsInv(cfg, w, move);
    case Promoting(move) => PromotionStepKeepsInv(cfg, w, move, PromotionStep(cfg, w, move));
    case Collecting(move) => CollectionStepKeepsInv(cfg, w, move, CollectionStep(cfg, w, move));
    case _ => OtherStepKeepsInv(cfg, w, step, Apply(cfg, w, step));
  }

  lemma OtherStepKeepsInv(cfg: BundleConfig, w: World, step: Step, w': World)
    requires BundleInv(cfg, w) && !step.Uploading? && !step.Promoting? && !step.Collecting? && w' == Apply(cfg, w, step)
    ensures BundleInv(cfg, w')
  {
    match step
    case Tick(d) => TickKeepsInv(cfg, w, w');
    case ExpireRecords(keys) => TickKeepsInv(cfg, w, w');
    case DiscardLands(id) => DiscardLandsKeepsInv(cfg, w, id, w');
    case SweepUnrecoverable(bundles, before) => SweepKeepsInv(cfg, w, bundles, before, w');
  }

  lemma {:induction false} RunKeepsInv(cfg: BundleConfig, w: World, steps: seq<Step>)
    requires ValidBundleConfig(cfg) && BundleInv(cfg, w)
    ensures BundleInv(cfg, Run(cfg, w, steps))
    decreases |steps|
  {
    if steps != [] {
      StepKeepsInv(cfg, w, steps[0]);
      RunKeepsInv(cfg, Apply(cfg, w, steps[0]), steps[1..]);
    }
  }
}
