/** The bundle transactions and the staging collector as the program runs them, on state updated in place. */
module BundleRepository {
  import opened Options
  import opened Events
  import opened Bundles

  datatype Candidate = Candidate(staging: StagingId, modifiedAt: Time)

  class Repository {
    var rows: map<BundleKey, BundleRow>
    var records: map<IdemKey, IdemRecord>
    var nextToken: nat

    constructor (migrated: map<BundleKey, BundleRow>)
      ensures rows == migrated && records == map[] && nextToken == 0
    {
      rows, records, nextToken := migrated, map[], 0;
    }

    /** These tables in a world whose clock, objects and processes are `base`'s. */
    ghost function In(base: World): World
      reads this
    {
      base.(rows := rows, records := records, nextToken := nextToken)
    }

    /** The upload transaction: replay under the idempotency key, else by digest, else a new row. */
    method CommitUpload(
      cfg: BundleConfig, ghost base: World, id: StagingId, up: Upload, now: Time, admissible: bool)
      returns (outcome: CommitOutcome)
      requires base.now == now && id in base.uploads && base.uploads[id] == up
      modifies this`rows, this`records
      ensures (In(base), outcome) == CommitTx(cfg, old(In(base)), id, admissible)
    {
      if !admissible {
        return Rejected;
      }
      var k := IdemKey(up.key.tenant, up.idem);
      if k in records && now < records[k].expiresAt && BundleKey(up.key.tenant, records[k].request) in rows {
        if records[k].request != up.key.digest {
          return Conflict;
        }
        if NeedsFreshStaging(rows[up.key]) {
          rows := rows[up.key := Revived(rows[up.key], id, now)];
        }
        assert rows == rows[up.key := rows[up.key]];
        assert records == records[k := records[k]];
        return Replay(rows[up.key].status, rows[up.key].staging);
      }
      if up.key !in rows {
        rows := rows[up.key := BundleRow(up.size, Some(id), Pending, None, None, 0, now, now, None, None)];
      } else if NeedsFreshStaging(rows[up.key]) {
        rows := rows[up.key := Revived(rows[up.key], id, now)];
      }
      assert rows == rows[up.key := rows[up.key]];
      records := records[k := IdemRecord(up.key.digest, now + cfg.idempotencyTtl)];
      outcome := Replay(rows[up.key].status, rows[up.key].staging);
    }

    /** Takes the publication lease of a due row. */
    method ClaimPublication(ghost base: World, key: BundleKey, lease: nat, now: Time) returns (token: Option<nat>)
      requires base.now == now
      modifies this`rows, this`nextToken
      ensures In(base).(promotions := base.promotions) ==
              ClaimTx(old(In(base)), key, lease).(promotions := base.promotions)
      ensures token.Some? ==> token.value == old(nextToken) && Holds(In(base), key, token.value)
      ensures token == None ==> In(base) == old(In(base))
    {
      token := None;
      if lease == 0 || key !in rows || !Claimable(rows[key], now) {
        return;
      }
      token := Some(nextToken);
      rows := rows[key := rows[key].(status := Publishing, token := token, leaseUntil := Some(now + lease),
                                     attemptCount := rows[key].attemptCount + 1)];
      nextToken := nextToken + 1;
    }

    method CompletePublication(key: BundleKey, n: nat, now: Time) returns (ok: bool)
      modifies this`rows
      ensures ok <==> key in old(rows) && old(rows)[key].status == Publishing && old(rows)[key].token == Some(n)
      ensures rows == if ok then CompleteTx(old(rows), key, now) else old(rows)
    {
      ok := key in rows && rows[key].status == Publishing && rows[key].token == Some(n);
      if ok {
        rows := rows[key := rows[key].(status := Ready, readyAt := Some(now), token := None, leaseUntil := None)];
      }
    }

    method FailPublication(
      cfg: BundleConfig, key: BundleKey, n: nat, attemptCount: nat, nextAttempt: Time)
      returns (ok: bool, abandoned: bool)
      modifies this`rows
      ensures ok <==> key in old(rows) && old(rows)[key].status == Publishing && old(rows)[key].token == Some(n)
      ensures abandoned <==> ok && attemptCount >= cfg.maxPublishAttempts
      ensures rows == if ok then FailTx(old(rows), key, nextAttempt, abandoned) else old(rows)
    {
      abandoned := attemptCount >= cfg.maxPublishAttempts;
      var status, abandonedAt := Pending, None;
      if abandoned {
        status, abandonedAt := Abandoned, Some(nextAttempt);
      }
      ok := key in rows && rows[key].status == Publishing && rows[key].token == Some(n);
      if !ok {
        return false, false;
      }
      rows := rows[key := rows[key].(status := status, token := None, leaseUntil := None, nextAttemptAt := nextAttempt,
                                     abandonedAt := abandonedAt)];
    }

    method IsStagingReferenced(ghost base: World, id: StagingId) returns (referenced: bool)
      ensures referenced == Referenced(In(base), id)
    {
      referenced := exists key ::
        && key in rows && rows[key].staging == Some(id)
        && (rows[key].status == Pending || rows[key].status == Publishing);
    }
  }

  // ------------------------------------------------------------------ collector

  /** The candidates of the first `k` that a sweep removes: old enough and unreferenced. */
  ghost function Garbage(candidates: seq<Candidate>, k: nat, age: nat, now: Time, w: World): set<StagingId>
    requires k <= |candidates|
  {
    set i | 0 <= i < k && candidates[i].modifiedAt + age < now && !Referenced(w, candidates[i].staging) ::
      candidates[i].staging
  }

  lemma GarbageGrows(candidates: seq<Candidate>, k: nat, age: nat, now: Time, w: World)
    requires k < |candidates|
    requires forall i, j :: 0 <= i < j < |candidates| ==> candidates[i].staging != candidates[j].staging
    ensures
      var removed := candidates[k].modifiedAt + age < now && !Referenced(w, candidates[k].staging);
      var before, after := Garbage(candidates, k, age, now, w), Garbage(candidates, k + 1, age, now, w);
      && after == (if removed then before + {candidates[k].staging} else before)
      && candidates[k].staging !in before
  {
  }

  class Collector {
    var store: map<StagingId, StagedObject>
    var cursor: Option<StagingId>

    constructor (store: map<StagingId, StagedObject>)
      ensures this.store == store && cursor == None
    {
      this.store, cursor := store, None;
    }

    /** One bounded page: removes exactly the garbage among the listed keys, then moves the cursor. */
    method SweepOnce(
      repository: Repository, ghost base: World, candidates: seq<Candidate>, next: Option<StagingId>, age: nat,
      now: Time)
      returns (removed: nat)
      requires forall i, j :: 0 <= i < j < |candidates| ==> candidates[i].staging != candidates[j].staging
      modifies this
      ensures store == old(store) - Garbage(candidates, |candidates|, age, now, repository.In(base))
      ensures removed == |Garbage(candidates, |candidates|, age, now, repository.In(base))|
      ensures cursor == next
    {
      removed := 0;
      var i := 0;
      while i < |candidates|
        invariant i <= |candidates|
        invariant store == old(store) - Garbage(candidates, i, age, now, repository.In(base))
        invariant removed == |Garbage(candidates, i, age, now, repository.In(base))|
        invariant cursor == old(cursor)
      {
        GarbageGrows(candidates, i, age, now, repository.In(base));
        if candidates[i].modifiedAt + age < now {
          var referenced := repository.IsStagingReferenced(base, candidates[i].staging);
          if !referenced {
            store := store - {candidates[i].staging};
            removed := removed + 1;
          }
        }
        i := i + 1;
      }
      cursor := next;
    }
  }
}
