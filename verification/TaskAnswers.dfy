/** What a claim in the task registry answers, and how long a completed task is remembered. */
module TaskAnswers {
  import opened Options
  import opened Events
  import opened TaskRegistry

  /** The entry is still remembered: it is not finished, or its time is not over. */
  predicate Remembered(s: Registry, key: Key, now: Time, ttl: nat)
  {
    && key in s.entries
    && (s.entries[key].processing || !s.entries[key].complete || now < s.entries[key].lastUsed + ttl)
  }

  /** What is left of a table once the finished entries past their time are gone. */
  lemma PruneAnswer(s: Registry, now: Time, ttl: nat, k: Key)
    ensures k in Prune(s.entries, now, ttl) <==> Remembered(s, k, now, ttl)
    ensures k in Prune(s.entries, now, ttl) ==> Prune(s.entries, now, ttl)[k] == s.entries[k]
  {
  }

  /**
   * A claim for a remembered task is told that it is done, or to wait, or it takes over: to publish the result if there
   * is one, to execute it if there is none.
   */
  lemma RememberedAnswer(cfg: Config, s: Registry, key: Key, victim: Option<Key>, now: Time)
    requires Remembered(s, key, now, cfg.ttl)
    ensures
      var r := ClaimTx(cfg, s, key, victim, now);
      var e := s.entries[key];
      && key in r.0.entries && r.0.entries[key] == e.(lastUsed := now, processing := e.processing || !e.complete)
      && r.0.nextId == s.nextId
      && if e.complete then r.1 == AlreadyDone && r.0.processes == s.processes
         else if e.processing then r.1 == Wait && r.0.processes == s.processes
         else
           && r.1 == Claimed(e.id, e.result)
           && r.0.processes == s.processes[s.nextProcess :=
                Process(key, e.id, if e.result.Some? then Publishing(e.result.value) else Executing)]
  {
    PruneAnswer(s, now, cfg.ttl, key);
  }

  /** A claim for any other task executes it under a new entry, or is turned away because the table is full. */
  lemma UnknownAnswer(cfg: Config, s: Registry, key: Key, victim: Option<Key>, now: Time)
    requires !Remembered(s, key, now, cfg.ttl)
    ensures
      var r := ClaimTx(cfg, s, key, victim, now);
      var left := Evict(Prune(s.entries, now, cfg.ttl), cfg.capacity, victim);
      if |left| < cfg.capacity
      then
        && r.1 == Claimed(s.nextId, None) && r.0.nextId == s.nextId + 1
        && r.0.entries == left[key := Entry(s.nextId, true, None, false, now)]
        && r.0.processes == s.processes[s.nextProcess := Process(key, s.nextId, Executing)]
      else r.1 == Full && r.0.entries == left && r.0.processes == s.processes && r.0.nextId == s.nextId
  {
    PruneAnswer(s, now, cfg.ttl, key);
  }

  // -------------------------------------------------------------- what holders do

  /** Only the entry under `key` changes. */
  predicate EntryWritten(s: Registry, s': Registry, key: Key, e: Entry)
  {
    s'.entries == s.entries[key := e]
  }

  predicate PhaseWritten(s: Registry, s': Registry, p: nat, phase: Phase)
  {
    p in s.processes && s'.processes == s.processes[p := s.processes[p].(phase := phase)]
  }

  /** A successful execution is counted, and its result remembered in the process's own entry. */
  lemma ExecutionAnswer(cfg: Config, s: Registry, p: nat, value: Value)
    requires RegistryInv(cfg, s) && p in s.processes && s.processes[p].phase == Executing
    ensures
      var q := s.processes[p];
      var s1 := Apply(cfg, s, ExecuteSucceeds(p, value));
      var s2 := Apply(cfg, s1, RememberResult(p));
      && PhaseWritten(s, s1, p, Executed(value)) && s1.entries == s.entries && Successes(s1, q.id) == 1
      && PhaseWritten(s1, s2, p, Publishing(value)) && q.key in s.entries
      && EntryWritten(s, s2, q.key, s.entries[q.key].(result := Some(value)))
  {
    assert ProcessOk(s, p);
  }

  /** A failed execution forgets its own entry, and no other. */
  lemma ExecutionFailureAnswer(cfg: Config, s: Registry, p: nat)
    requires RegistryInv(cfg, s) && p in s.processes && s.processes[p].phase == Executing
    ensures
      var s' := Apply(cfg, s, ExecuteFails(p));
      PhaseWritten(s, s', p, Over) && s'.entries == s.entries - {s.processes[p].key}
  {
    assert ProcessOk(s, p);
  }

  /** A publication is recorded with the result; its end frees the entry, complete or not as it went, and dates it. */
  lemma PublicationAnswer(cfg: Config, s: Registry, p: nat, complete: bool, now: Time)
    requires RegistryInv(cfg, s) && p in s.processes && s.processes[p].phase.Publishing?
    ensures
      var q := s.processes[p];
      var s1 := Apply(cfg, s, Publish(p));
      var s2 := Apply(cfg, s1, Finish(p, complete, now));
      && s1.published == s.published + [(q.id, q.phase.value)] && s1.entries == s.entries
      && PhaseWritten(s1, s2, p, Over) && q.key in s.entries
      && EntryWritten(s, s2, q.key, s.entries[q.key].(processing := false, complete := complete, lastUsed := now))
  {
    assert ProcessOk(s, p);
  }

  // ------------------------------------------------------------- how long it lasts

  predicate CompletedSince(s: Registry, k: Key, id: nat, since: Time)
  {
    && k in s.entries && s.entries[k].id == id && s.entries[k].complete && !s.entries[k].processing
    && since <= s.entries[k].lastUsed
  }

  /** The step's clock is between `since` and the end of the time to live, and it does not evict the key. */
  predicate WithinTtl(cfg: Config, step: Step, k: Key, since: Time)
  {
    step.Claim? ==> since <= step.now < since + cfg.ttl && step.victim != Some(k)
  }

  lemma ClaimKeepsCompleted(
    cfg: Config, s: Registry, key: Key, victim: Option<Key>, now: Time, k: Key, id: nat, since: Time)
    requires CompletedSince(s, k, id, since) && since <= now < since + cfg.ttl && victim != Some(k)
    ensures CompletedSince(ClaimTx(cfg, s, key, victim, now).0, k, id, since)
  {
    PruneAnswer(s, now, cfg.ttl, k);
    if Remembered(s, key, now, cfg.ttl) {
      OthersAreLeft(cfg, s, key, victim, now, k);
      RememberedAnswer(cfg, s, key, victim, now);
    } else {
      UnknownAnswer(cfg, s, key, victim, now);
    }
  }

  lemma OthersAreLeft(cfg: Config, s: Registry, key: Key, victim: Option<Key>, now: Time, k: Key)
    requires Remembered(s, key, now, cfg.ttl) && Remembered(s, k, now, cfg.ttl)
    ensures
      var s' := ClaimTx(cfg, s, key, victim, now).0;
      k != key ==> k in s'.entries && s'.entries[k] == s.entries[k]
  {
    PruneAnswer(s, now, cfg.ttl, key);
    PruneAnswer(s, now, cfg.ttl, k);
  }

  lemma StepKeepsCompleted(cfg: Config, s: Registry, step: Step, k: Key, id: nat, since: Time)
    requires RegistryInv(cfg, s) && CompletedSince(s, k, id, since) && WithinTtl(cfg, step, k, since)
    ensures CompletedSince(Apply(cfg, s, step), k, id, since)
  {
    if step.Claim? {
      ClaimKeepsCompleted(cfg, s, step.key, step.victim, step.now, k, id, since);
    } else {
      assert step.p in s.processes ==> ProcessOk(s, step.p);
    }
  }

  /** A completed task stays completed for its whole time to live, unless it is evicted to make room. */
  lemma {:induction false} RememberedForTtl(
    cfg: Config, s: Registry, steps: seq<Step>, k: Key, id: nat, since: Time)
    requires RegistryInv(cfg, s) && CompletedSince(s, k, id, since)
    requires forall i :: 0 <= i < |steps| ==> WithinTtl(cfg, steps[i], k, since)
    ensures CompletedSince(Run(cfg, s, steps), k, id, since)
    decreases |steps|
  {
    if steps != [] {
      StepKeepsCompleted(cfg, s, steps[0], k, id, since);
      StepKeepsInv(cfg, s, steps[0]);
      RememberedForTtl(cfg, Apply(cfg, s, steps[0]), steps[1..], k, id, since);
    }
  }

  /** So a duplicate within that time is told that its work is done. */
  lemma DuplicateIsDone(
    cfg: Config, s: Registry, steps: seq<Step>, k: Key, id: nat, since: Time, victim: Option<Key>, now: Time)
    requires RegistryInv(cfg, s) && CompletedSince(s, k, id, since)
    requires forall i :: 0 <= i < |steps| ==> WithinTtl(cfg, steps[i], k, since)
    requires now < since + cfg.ttl
    ensures ClaimTx(cfg, Run(cfg, s, steps), k, victim, now).1 == AlreadyDone
  {
    RememberedForTtl(cfg, s, steps, k, id, since);
    RememberedAnswer(cfg, Run(cfg, s, steps), k, victim, now);
  }
}
