/** Which keys the task registry sees, and what becomes of a task under the empty one. */
module TaskKeys {
  import opened Options
  import opened Text
  import opened Events
  import opened TaskRegistry

  // --------------------------------------------------------------- the empty key

  /** A task under the empty key, from claim to publication. */
  function EmptyKeyRun(): seq<Step>
  {
    [Claim("", None, 0), ExecuteSucceeds(0, 0), RememberResult(0), Publish(0), Finish(0, true, 0)]
  }

  /** The registry after it: one finished entry, under the empty key. */
  lemma EmptyKeyIsFinished(cfg: Config)
    requires cfg.capacity > 0
    ensures Run(cfg, Start(), EmptyKeyRun()).entries == map["" := Entry(0, false, Some(0), true, 0)]
  {
    var s0 := Start();
    var s1 := Apply(cfg, s0, Claim("", None, 0));
    assert s1.entries == map["" := Entry(0, true, None, false, 0)];
    assert s1.processes == map[0 := Process("", 0, Executing)];
    var s2 := Apply(cfg, s1, ExecuteSucceeds(0, 0));
    var s3 := Apply(cfg, s2, RememberResult(0));
    assert s3.entries == map["" := Entry(0, true, Some(0), false, 0)];
    var s4 := Apply(cfg, s3, Publish(0));
    var s5 := Apply(cfg, s4, Finish(0, true, 0));
    var steps := EmptyKeyRun();
    assert steps[1..][1..][1..][1..] == [Finish(0, true, 0)] && [Finish(0, true, 0)][1..] == [];
    assert steps[1..][1..][1..][0] == Publish(0) && steps[1..][1..][0] == RememberResult(0);
    assert steps[1..][0] == ExecuteSucceeds(0, 0);
    assert Run(cfg, s3, steps[1..][1..][1..]) == Run(cfg, s4, [Finish(0, true, 0)]) == s5;
    assert Run(cfg, s1, steps[1..]) == Run(cfg, s2, steps[1..][1..]) == Run(cfg, s3, steps[1..][1..][1..]);
  }

  /**
   * The exception exists: with room for one entry, that finished entry is never evicted, and every other task is turned
   * away until it is pruned.
   */
  lemma EmptyKeyFillsTheTable(ttl: nat, key: Key, victim: Option<Key>, now: Time)
    requires ttl > 0 && key != "" && now < ttl
    ensures
      var cfg := Config(1, ttl);
      var s := Run(cfg, Start(), EmptyKeyRun());
      && EmptyKeyIsOldest(Prune(s.entries, now, ttl))
      && (victim != Some("") ==> ClaimTx(cfg, s, key, victim, now).1 == Full)
      && ClaimTx(cfg, s, key, Some(""), now).1.Claimed?
  {
    var cfg := Config(1, ttl);
    EmptyKeyIsFinished(cfg);
    var s := Run(cfg, Start(), EmptyKeyRun());
    assert Prune(s.entries, now, ttl) == s.entries;
    assert |s.entries| == 1 && s.entries - {""} == map[];
  }

  lemma StepAddsNoEmptyKey(cfg: Config, s: Registry, step: Step)
    requires "" !in s.entries && (step.Claim? ==> step.key != "")
    ensures "" !in Apply(cfg, s, step).entries
  {
  }

  /** Without claims for the empty key there is never an entry under it, so eviction is always right. */
  lemma {:induction false} NoEmptyKey(cfg: Config, s: Registry, steps: seq<Step>)
    requires "" !in s.entries
    requires forall i :: 0 <= i < |steps| && steps[i].Claim? ==> steps[i].key != ""
    ensures "" !in Run(cfg, s, steps).entries && !EmptyKeyIsOldest(Run(cfg, s, steps).entries)
    decreases |steps|
  {
    if steps != [] {
      StepAddsNoEmptyKey(cfg, s, steps[0]);
      NoEmptyKey(cfg, Apply(cfg, s, steps[0]), steps[1..]);
    }
  }

  // ----------------------------------------------------------- deduplication keys

  /** `SubmissionRequested.DeduplicationKey`, the key of the registry's only caller. */
  function DeduplicationKey(eventId: string, submissionId: int, attemptNo: int): (key: Key)
    ensures key != ""
  {
    eventId + "/" + FormatInt(submissionId) + "/" + FormatInt(attemptNo)
  }

  /** Different attempts have different keys, whatever the event identifiers contain. */
  lemma DeduplicationKeysDiffer(e: string, s: int, a: int, e': string, s': int, a': int)
    requires DeduplicationKey(e, s, a) == DeduplicationKey(e', s', a')
    ensures e == e' && s == s' && a == a'
  {
    NoSlashInNumbers(s);
    NoSlashInNumbers(a);
    NoSlashInNumbers(s');
    NoSlashInNumbers(a');
    LastSlash(e + "/" + FormatInt(s), FormatInt(a), e' + "/" + FormatInt(s'), FormatInt(a'));
    LastSlash(e, FormatInt(s), e', FormatInt(s'));
    FormatIntInjective(s, s');
    FormatIntInjective(a, a');
  }

  /** Two texts split the same way at their last slash. */
  lemma LastSlash(x: string, y: string, x': string, y': string)
    requires x + "/" + y == x' + "/" + y' && '/' !in y && '/' !in y'
    ensures x == x' && y == y'
  {
    var t := x + "/" + y;
    assert t[|x|] == '/' && t[|x'|] == '/';
    assert forall i :: |x| < i < |t| ==> t[i] == y[i - |x| - 1] != '/';
    assert forall i :: |x'| < i < |t| ==> t[i] == y'[i - |x'| - 1] != '/';
    assert x == t[..|x|] && x' == t[..|x'|] && y == t[|x| + 1..] && y' == t[|x'| + 1..];
  }
}
