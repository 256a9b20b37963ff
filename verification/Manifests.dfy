/** Bundle manifests, from the point where they are parsed. */
module Manifests {
  import opened Options
  import opened Checkers
  import opened Paths
  import JobModel

  const MAX_CASES: nat := 10_000
  const MAX_TOTAL_SCORE: nat := 1_000_000_000
  const MAX_EXECUTION_MILLIS: nat := 86_400_000
  const MAX_MEMORY_MIB: nat := 2_147_483_647

  datatype JudgeMode = Acm | Oi | OtherMode(name: string)

  datatype SpecialJudge = SpecialJudge(
    language: string, source: string, sourceSha256: string, timeLimitMillis: int, memoryLimitMiB: int)

  datatype Case = Case(id: string, input: string, output: string, weight: int)

  datatype Manifest = Manifest(
    schemaVersion: int,
    judgeMode: JudgeMode,
    checker: Option<Checker>,
    timeLimitMillis: int,
    memoryLimitMiB: int,
    totalScore: Option<int>,
    specialJudge: Option<SpecialJudge>,
    cases: seq<Case>)

  // ---------------------------------------------------------------------- fields

  predicate Alphanumeric(c: char)
  {
    'A' <= c <= 'Z' || 'a' <= c <= 'z' || '0' <= c <= '9'
  }

  /** `^[A-Za-z0-9][A-Za-z0-9._-]{0,63}$`. */
  predicate ValidCaseId(id: string)
  {
    && 1 <= |id| <= 64
    && Alphanumeric(id[0])
    && forall i :: 0 <= i < |id| ==> Alphanumeric(id[i]) || id[i] == '.' || id[i] == '_' || id[i] == '-'
  }

  predicate KnownLanguage(language: string)
  {
    language in {"go", "cpp", "python", "java", "javascript"}
  }

  predicate LowerHex(s: string)
  {
    |s| == 64 && forall i :: 0 <= i < |s| ==> '0' <= s[i] <= '9' || 'a' <= s[i] <= 'f'
  }

  predicate ValidLimits(time: int, memory: int)
  {
    0 < time <= MAX_EXECUTION_MILLIS && 0 < memory <= MAX_MEMORY_MIB
  }

  predicate ValidSpecialJudge(j: SpecialJudge)
  {
    && KnownLanguage(j.language)
    && ValidArtifactPath(j.source) && j.source != "manifest.json"
    && LowerHex(j.sourceSha256)
    && ValidLimits(j.timeLimitMillis, j.memoryLimitMiB)
  }

  predicate ValidHeader(m: Manifest)
  {
    && (m.schemaVersion == 1 || m.schemaVersion == 2)
    && ValidLimits(m.timeLimitMillis, m.memoryLimitMiB)
    && (m.schemaVersion == 1 ==>
          m.judgeMode == Acm && m.checker.Some? && m.totalScore == None && m.specialJudge == None)
    && (m.schemaVersion == 2 ==> (m.judgeMode == Acm || m.judgeMode == Oi) && m.checker.Some?)
    && (m.checker == Some(Special) ==> m.specialJudge.Some? && ValidSpecialJudge(m.specialJudge.value))
    && (m.checker != Some(Special) ==> m.specialJudge == None)
    && 0 < |m.cases| <= MAX_CASES
  }

  // ----------------------------------------------------------------------- cases

  predicate ValidWeight(mode: JudgeMode, weight: int)
  {
    (mode == Acm ==> weight == 1) && (mode == Oi ==> 0 < weight <= MAX_TOTAL_SCORE)
  }

  function WeightSum(cases: seq<Case>): int
  {
    if cases == [] then 0 else WeightSum(cases[..|cases| - 1]) + cases[|cases| - 1].weight
  }

  /** All files the manifest names, in order. */
  function Files(m: Manifest, k: nat): (names: seq<string>)
    requires k <= |m.cases|
  {
    if k == 0 then (if m.specialJudge.Some? then [m.specialJudge.value.source] else [])
    else Files(m, k - 1) + [m.cases[k - 1].input, m.cases[k - 1].output]
  }

  predicate Distinct(names: seq<string>)
  {
    forall i, j :: 0 <= i < j < |names| ==> names[i] != names[j]
  }

  predicate ValidFile(name: string)
  {
    ValidArtifactPath(name) && name != "manifest.json"
  }

  predicate ValidCase(m: Manifest, i: nat)
    requires i < |m.cases|
  {
    var c := m.cases[i];
    ValidCaseId(c.id) && ValidWeight(m.judgeMode, c.weight) && ValidFile(c.input) && ValidFile(c.output)
  }

  predicate DistinctIds(cases: seq<Case>)
  {
    forall i, j :: 0 <= i < j < |cases| ==> cases[i].id != cases[j].id
  }

  ghost predicate ValidCases(m: Manifest, k: nat)
    requires k <= |m.cases|
  {
    && (forall i :: 0 <= i < k ==> ValidCase(m, i))
    && DistinctIds(m.cases[..k])
    && Distinct(Files(m, k))
    && WeightSum(m.cases[..k]) <= MAX_TOTAL_SCORE
  }

  /** What a manifest has to be. */
  ghost predicate ValidManifest(m: Manifest)
  {
    && ValidHeader(m)
    && ValidCases(m, |m.cases|)
    && (m.judgeMode == Oi ==> m.totalScore == Some(WeightSum(m.cases)))
    && (m.judgeMode != Oi ==> m.totalScore == None)
  }

  // ------------------------------------------------------------------ validation

  ghost function Names(m: Manifest, k: nat): set<string>
    requires k <= |m.cases|
  {
    set i | 0 <= i < |Files(m, k)| :: Files(m, k)[i]
  }

  lemma FilesExtend(m: Manifest, k: nat)
    requires k < |m.cases|
    ensures
      var c := m.cases[k];
      && (Distinct(Files(m, k + 1)) <==>
            Distinct(Files(m, k)) && c.input !in Names(m, k) && c.output !in Names(m, k) && c.input != c.output)
      && Names(m, k + 1) == Names(m, k) + {c.input, c.output}
  {
    var old_, new_ := Files(m, k), Files(m, k + 1);
    var c := m.cases[k];
    assert new_ == old_ + [c.input, c.output];
    assert forall i :: 0 <= i < |old_| ==> new_[i] == old_[i];
    assert new_[|old_|] == c.input && new_[|old_| + 1] == c.output;
    assert forall name :: name in Names(m, k) ==> name in Names(m, k + 1);
    assert c.input in Names(m, k + 1) && c.output in Names(m, k + 1);
  }

  lemma CasesExtend(m: Manifest, k: nat, ids: set<string>)
    requires k < |m.cases| && ids == (set i | 0 <= i < k :: m.cases[i].id)
    ensures DistinctIds(m.cases[..k + 1]) <==> DistinctIds(m.cases[..k]) && m.cases[k].id !in ids
    ensures WeightSum(m.cases[..k + 1]) == WeightSum(m.cases[..k]) + m.cases[k].weight
  {
    assert m.cases[..k + 1][..k] == m.cases[..k];
    var a, b := m.cases[..k], m.cases[..k + 1];
    assert forall i :: 0 <= i < k ==> b[i] == a[i] && b[i].id in ids;
    assert b[k] == m.cases[k];
    if m.cases[k].id in ids {
      var i :| 0 <= i < k && m.cases[i].id == m.cases[k].id;
      assert b[i].id == b[k].id;
    }
  }

  /** What held of the first cases holds of fewer of them. */
  lemma {:induction false} ValidCasesPrefix(m: Manifest, k: nat, n: nat)
    requires k <= n <= |m.cases| && ValidCases(m, n) && (m.judgeMode == Acm || m.judgeMode == Oi)
    ensures ValidCases(m, k)
    decreases n - k
  {
    if k < n {
      LastCaseDropped(m, n - 1);
      ValidCasesPrefix(m, k, n - 1);
    }
  }

  lemma LastCaseDropped(m: Manifest, k: nat)
    requires k < |m.cases| && ValidCases(m, k + 1) && (m.judgeMode == Acm || m.judgeMode == Oi)
    ensures ValidCases(m, k)
  {
    FilesExtend(m, k);
    CasesExtend(m, k, set i | 0 <= i < k :: m.cases[i].id);
    assert ValidCase(m, k);
    assert ValidWeight(m.judgeMode, m.cases[k].weight);
  }

  /** The next case against everything seen so far. */
  predicate CaseFits(m: Manifest, k: nat, ids: set<string>, paths: set<string>, weightSum: int)
    requires k < |m.cases|
  {
    && ValidCase(m, k) && m.cases[k].id !in ids && weightSum + m.cases[k].weight <= MAX_TOTAL_SCORE
    && m.cases[k].input !in paths && m.cases[k].output !in paths && m.cases[k].input != m.cases[k].output
  }

  /** What the loop has collected after `k` cases. */
  ghost predicate Collected(m: Manifest, k: nat, ids: set<string>, paths: set<string>, weightSum: int)
    requires k <= |m.cases|
  {
    ids == (set i | 0 <= i < k :: m.cases[i].id) && paths == Names(m, k) && weightSum == WeightSum(m.cases[..k])
  }

  lemma NothingCollected(m: Manifest)
    ensures ValidCases(m, 0)
    ensures Collected(m, 0, {}, if m.specialJudge.Some? then {m.specialJudge.value.source} else {}, 0)
  {
    if m.specialJudge.Some? {
      var names := Files(m, 0);
      assert names == [m.specialJudge.value.source];
      assert names[0] in Names(m, 0);
    }
  }

  lemma ValidCasesExtend(m: Manifest, k: nat, ids: set<string>, paths: set<string>, weightSum: int)
    requires k < |m.cases| && ValidCases(m, k) && Collected(m, k, ids, paths, weightSum)
    ensures ValidCases(m, k + 1) <==> CaseFits(m, k, ids, paths, weightSum)
    ensures Collected(
      m, k + 1, ids + {m.cases[k].id}, paths + {m.cases[k].input, m.cases[k].output}, weightSum + m.cases[k].weight)
  {
    FilesExtend(m, k);
    CasesExtend(m, k, ids);
  }

  lemma InvalidPrefix(m: Manifest, k: nat)
    requires k <= |m.cases| && !ValidCases(m, k) && (m.judgeMode == Acm || m.judgeMode == Oi)
    ensures !ValidCases(m, |m.cases|)
  {
    if ValidCases(m, |m.cases|) {
      ValidCasesPrefix(m, k, |m.cases|);
    }
  }

  /** The case loop: identifiers, weights and files against everything seen so far. */
  method ValidateCases(m: Manifest) returns (ok: bool, weightSum: int)
    requires m.judgeMode == Acm || m.judgeMode == Oi
    ensures ok <==> ValidCases(m, |m.cases|)
    ensures ok ==> weightSum == WeightSum(m.cases)
  {
    var ids: set<string>, paths: set<string> := {}, {};
    if m.specialJudge.Some? {
      paths := {m.specialJudge.value.source};
    }
    weightSum := 0;
    NothingCollected(m);
    var k := 0;
    while k < |m.cases|
      invariant k <= |m.cases| && ValidCases(m, k) && Collected(m, k, ids, paths, weightSum)
    {
      ValidCasesExtend(m, k, ids, paths, weightSum);
      ok := CheckCase(m, k, ids, paths, weightSum);
      if !ok {
        InvalidPrefix(m, k + 1);
        return;
      }
      var c := m.cases[k];
      ids := ids + {c.id};
      paths := paths + {c.input, c.output};
      weightSum := weightSum + c.weight;
      k := k + 1;
    }
    assert m.cases[..k] == m.cases;
    ok := true;
  }

  method CheckCase(m: Manifest, k: nat, ids: set<string>, paths: set<string>, weightSum: int) returns (ok: bool)
    requires k < |m.cases|
    ensures ok <==> CaseFits(m, k, ids, paths, weightSum)
  {
    var c := m.cases[k];
    if !ValidCaseId(c.id) || c.id in ids {
      return false;
    }
    if m.judgeMode == Acm && c.weight != 1 {
      return false;
    }
    if m.judgeMode == Oi && (c.weight <= 0 || c.weight > MAX_TOTAL_SCORE) {
      return false;
    }
    if weightSum + c.weight > MAX_TOTAL_SCORE {
      return false;
    }
    var inputOk := ValidateArtifactPath(c.input);
    if !inputOk || c.input == "manifest.json" || c.input in paths {
      return false;
    }
    var outputOk := ValidateArtifactPath(c.output);
    ok := outputOk && c.output != "manifest.json" && c.output !in paths + {c.input};
  }

  /** `Manifest.Validate` accepts exactly the valid manifests. */
  method Validate(m: Manifest) returns (ok: bool)
    ensures ok <==> ValidManifest(m)
  {
    if m.schemaVersion != 1 && m.schemaVersion != 2 {
      return false;
    }
    if !ValidLimits(m.timeLimitMillis, m.memoryLimitMiB) {
      return false;
    }
    if m.schemaVersion == 1 {
      if m.judgeMode != Acm || m.checker == None || m.totalScore.Some? || m.specialJudge.Some? {
        return false;
      }
    } else if (m.judgeMode != Acm && m.judgeMode != Oi) || m.checker == None {
      return false;
    }
    if m.checker.value == Special {
      if m.specialJudge == None || !ValidSpecialJudge(m.specialJudge.value) {
        return false;
      }
    } else if m.specialJudge.Some? {
      return false;
    }
    if |m.cases| == 0 || |m.cases| > MAX_CASES {
      return false;
    }
    var casesOk, weightSum := ValidateCases(m);
    if !casesOk {
      return false;
    }
    if m.judgeMode == Oi {
      PositiveWeights(m, |m.cases|);
      assert m.cases[..|m.cases|] == m.cases;
      ok := m.totalScore.Some? && 0 < m.totalScore.value <= MAX_TOTAL_SCORE && m.totalScore.value == weightSum;
    } else {
      ok := m.totalScore == None;
    }
  }

  lemma {:induction false} PositiveWeights(m: Manifest, k: nat)
    requires k <= |m.cases| && m.judgeMode == Oi && forall i :: 0 <= i < k ==> ValidCase(m, i)
    ensures k > 0 ==> WeightSum(m.cases[..k]) > 0
    ensures WeightSum(m.cases[..k]) >= 0
  {
    if k > 0 {
      PositiveWeights(m, k - 1);
      assert m.cases[..k][..k - 1] == m.cases[..k - 1];
      assert ValidCase(m, k - 1);
    }
  }

  /** A special checker cannot be asked for in version 1: the version forbids the description it needs. */
  lemma SpecialNeedsVersion2(m: Manifest)
    requires ValidManifest(m) && m.checker == Some(Special)
    ensures m.schemaVersion == 2
  {
  }

  // ---------------------------------------------------------------- reservations

  /** What the claim of a job reads from its manifest. */
  function ExecutionLimits(m: Manifest): JobModel.ExecutionLimits
  {
    JobModel.ExecutionLimits(m.timeLimitMillis, m.memoryLimitMiB,
      if m.specialJudge.Some?
      then Some(JobModel.CheckerLimits(m.specialJudge.value.timeLimitMillis, m.specialJudge.value.memoryLimitMiB))
      else None,
      |m.cases|)
  }

  /** Every validated manifest has a reservation: the product never overflows. */
  lemma ManifestHasReservation(m: Manifest)
    requires ValidManifest(m)
    ensures
      var perCase := m.timeLimitMillis + if m.specialJudge.Some? then m.specialJudge.value.timeLimitMillis else 0;
      JobModel.MaximumExecutionMillis(ExecutionLimits(m)) == Some(perCase * |m.cases|)
  {
    JobModel.ParsedLimitsHaveReservation(ExecutionLimits(m));
  }
}
