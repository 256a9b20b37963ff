/** What the pipeline's results mean, and which of its own validators they pass. */
module JudgingResults {
  import opened Options
  import opened Text
  import opened Checkers
  import opened Paths
  import opened Manifests
  import opened Judging
  import Results

  // -------------------------------------------------------------------- pipeline

  /** Everything a result of a run is known to be: judged, then scored. */
  predicate Final(m: Manifest, judged: CanonicalResult, r: CanonicalResult)
  {
    && Judged(m, judged) && Scored(m, judged, r)
    && (m.judgeMode == Oi ==> judged.cases == [] || |judged.cases| == |m.cases|)
    && judged.status != SystemError
  }

  lemma NeverSystemError(m: Manifest, r: CanonicalResult)
    requires Judged(m, r)
    ensures r.status != SystemError
  {
    VerdictIsSome(r.cases);
    forall i | 0 <= i < |r.cases|
      ensures r.cases[i].status != SystemError
    {
      assert CaseJudged(m.cases[i], r.cases[i]);
    }
  }

  /** The request for a manifest: stopping at a failure is for ACM without a special judge. */
  function RequestOf(m: Manifest, stopRequested: bool): Request
  {
    Request(
      seq(|m.cases|, i requires 0 <= i < |m.cases| => m.cases[i].id),
      stopRequested && m.judgeMode == Acm && m.checker != Some(Special))
  }

  /** The manifest can be judged in one batch, and the sandbox's answer to it is well formed. */
  ghost predicate Answered(m: Manifest, stopRequested: bool, events: seq<Event>)
  {
    ValidManifest(m) && |m.cases| <= MAX_BATCH_CASES && ValidEvents(RequestOf(m, stopRequested), events)
  }

  /** What the answer alone says about each case it has an event for. */
  function FirstCases(
    m: Manifest, stopRequested: bool, expected: seq<string>, events: seq<Event>): (cases: seq<CanonicalCase>)
    requires Answered(m, stopRequested, events) && |expected| == |m.cases|
    ensures CompileOnly(events) ==> cases == []
    ensures !CompileOnly(events) ==>
      |cases| == |events| - 1 && JudgedSoFar(m.checker.value, events, expected, cases)
  {
    if CompileOnly(events) then []
    else
      assert forall i :: 0 <= i < |events| - 1 ==> CaseEvent(events[i], RequestOf(m, stopRequested).caseIds[i]);
      seq(|events| - 1, i requires 0 <= i < |events| - 1 => JudgedCase(m.checker.value, events[i], expected[i]))
  }

  lemma FirstCasesAre(
    m: Manifest, stopRequested: bool, expected: seq<string>, events: seq<Event>, cases: seq<CanonicalCase>)
    requires Answered(m, stopRequested, events) && |expected| == |m.cases|
    requires if CompileOnly(events)
             then cases == []
             else |cases| == |events| - 1 && JudgedSoFar(m.checker.value, events, expected, cases)
    ensures cases == FirstCases(m, stopRequested, expected, events)
  {
  }

  /** The special judge looks at the accepted cases, unless the first failure is a compile error. */
  predicate NeedsSpecialJudge(m: Manifest, cases: seq<CanonicalCase>)
  {
    m.checker == Some(Special) && cases != [] && Verdict(cases) != CompileError
  }

  /** A result comes out: every answer is well formed. */
  ghost predicate ComesOut(
    m: Manifest, stopRequested: bool, expected: seq<string>, events: seq<Event>,
    checkerEvents: seq<Event>, verdicts: seq<Option<bool>>)
    requires |expected| == |m.cases|
  {
    && Answered(m, stopRequested, events)
    && var first := FirstCases(m, stopRequested, expected, events);
       NeedsSpecialJudge(m, first) ==> Rejudgeable(first, checkerEvents, verdicts)
  }

  /** What comes out: the cases of the answer, rejudged where the special judge applies, then scored. */
  ghost predicate Outcome(
    m: Manifest, stopRequested: bool, expected: seq<string>, events: seq<Event>,
    checkerEvents: seq<Event>, verdicts: seq<Option<bool>>, judged: CanonicalResult, r: CanonicalResult)
    requires |expected| == |m.cases|
  {
    && ComesOut(m, stopRequested, expected, events, checkerEvents, verdicts)
    && Final(m, judged, r)
    && var first := FirstCases(m, stopRequested, expected, events);
       if NeedsSpecialJudge(m, first) then
         judged.exitCode == 0 && RejudgedCases(first, judged.cases, checkerEvents, verdicts)
       else judged.exitCode == AnswerExitCode(m, stopRequested, expected, events) && judged.cases == first
  }

  /** The exit code of the first run that is not judged ACCEPTED. */
  function AnswerExitCode(m: Manifest, stopRequested: bool, expected: seq<string>, events: seq<Event>): int
    requires Answered(m, stopRequested, events) && |expected| == |m.cases|
  {
    if CompileOnly(events) then 0
    else
      assert forall i :: 0 <= i < |events| - 1 ==> CaseEvent(events[i], RequestOf(m, stopRequested).caseIds[i]);
      FirstExitCode(m.checker.value, events, expected, |events| - 1)
  }

  lemma AnswerExitCodeIs(m: Manifest, stopRequested: bool, expected: seq<string>, events: seq<Event>, code: int)
    requires Answered(m, stopRequested, events) && |expected| == |m.cases|
    requires CompileOnly(events) ==> code == 0
    requires !CompileOnly(events) ==>
      && (forall i :: 0 <= i < |events| - 1 ==> events[i].Event? && events[i].result.Some?)
      && code == FirstExitCode(m.checker.value, events, expected, |events| - 1)
    ensures code == AnswerExitCode(m, stopRequested, expected, events)
  {
  }

  /**
   * `ExecuteCanonical` without the sandbox: `events` is its answer to the contestant's batch, `checkerEvents` and
   * `verdicts` its answer to the special judge's. A result comes out exactly if every answer is well formed.
   */
  method ExecuteCanonical(
    m: Manifest, stopRequested: bool, expected: seq<string>, events: seq<Event>, checkerEvents: seq<Event>,
    verdicts: seq<Option<bool>>)
    returns (result: Option<CanonicalResult>, ghost judged: CanonicalResult)
    requires |expected| == |m.cases| && |verdicts| + 1 >= |checkerEvents|
    ensures result.Some? <==> ComesOut(m, stopRequested, expected, events, checkerEvents, verdicts)
    ensures result.Some? ==> Outcome(m, stopRequested, expected, events, checkerEvents, verdicts, judged, result.value)
  {
    result := None;
    judged := CanonicalResult(SystemError, 0, 0, 0, "", "", None, None, []);
    var valid := Validate(m);
    if !valid || |m.cases| > MAX_BATCH_CASES {
      return;
    }
    var checker := m.checker.value;
    var request := RequestOf(m, stopRequested);
    var ok := ValidateBatchEvents(request, events);
    if !ok {
      return;
    }
    var r := Aggregate(m, checker, request, expected, events);
    judged := r;
    NeverSystemError(m, r);
    FirstCasesAre(m, stopRequested, expected, events, r.cases);
    AnswerExitCodeIs(m, stopRequested, expected, events, r.exitCode);
    if checker == Special && r.status != CompileError {
      TimesAreSingle(m, checker, expected, events, r);
      var merged := ApplySpecialJudge(m, r, checkerEvents, verdicts);
      if merged == None {
        return;
      }
      r := merged.value;
      judged := r;
      NeverSystemError(m, r);
    }
    var scored := ApplyScoring(m, r);
    result := Some(scored);
  }

  lemma TimesAreSingle(m: Manifest, checker: Checker, expected: seq<string>, events: seq<Event>, r: CanonicalResult)
    requires Judged(m, r) && |expected| == |m.cases| && |r.cases| < |events|
    requires forall i :: 0 <= i < |r.cases| ==>
               events[i].Event? && events[i].result.Some? && r.cases[i] == JudgedCase(checker, events[i], expected[i])
    ensures r.timeMillis <= MAX_TIME && forall i :: 0 <= i < |r.cases| ==> r.cases[i].timeMillis <= MAX_TIME
  {
    MaximaAreBounded(r.cases, MAX_TIME);
  }

  lemma {:induction false} MaximaAreBounded(cases: seq<CanonicalCase>, limit: nat)
    requires forall i :: 0 <= i < |cases| ==>
               0 <= cases[i].timeMillis <= limit && 0 <= cases[i].memoryKb <= MAX_MEMORY_KB
    ensures 0 <= MaxTime(cases) <= limit && 0 <= MaxMemory(cases) <= MAX_MEMORY_KB
  {
    if cases != [] {
      MaximaAreBounded(cases[..|cases| - 1], limit);
    }
  }

  // -------------------------------------------------------------------- verdicts

  predicate AllAccepted(cases: seq<CanonicalCase>)
  {
    forall i :: 0 <= i < |cases| ==> cases[i].status == Accepted
  }

  predicate Weighted(m: Manifest)
  {
    forall i :: 0 <= i < |m.cases| ==> m.cases[i].weight > 0
  }

  lemma OiIsWeighted(m: Manifest)
    requires ValidManifest(m) && m.judgeMode == Oi
    ensures Weighted(m)
  {
    forall i | 0 <= i < |m.cases| ensures m.cases[i].weight > 0 { assert ValidCase(m, i); }
  }

  /** Accepted weights never exceed the weights, and reach them only if everything is accepted. */
  lemma {:induction false} AcceptedWeightIsPart(m: Manifest, cases: seq<CanonicalCase>)
    requires |cases| <= |m.cases| && Weighted(m)
    ensures 0 <= AcceptedWeight(m, cases) <= WeightSum(m.cases[..|cases|])
    ensures AcceptedWeight(m, cases) == WeightSum(m.cases[..|cases|]) <==> AllAccepted(cases)
  {
    if cases != [] {
      var n := |cases| - 1;
      AcceptedWeightIsPart(m, cases[..n]);
      assert m.cases[..n + 1][..n] == m.cases[..n];
      assert AllAccepted(cases) <==> AllAccepted(cases[..n]) && cases[n].status == Accepted by {
        assert forall i :: 0 <= i < n ==> cases[..n][i] == cases[i];
      }
    }
  }

  /** The verdict is ACCEPTED exactly when every case of the manifest was run and accepted. */
  lemma AcceptedMeansEveryCase(m: Manifest, judged: CanonicalResult, r: CanonicalResult)
    requires ValidManifest(m) && Final(m, judged, r)
    ensures r.status == Accepted <==> |r.cases| == |m.cases| && AllAccepted(r.cases)
  {
    VerdictIsSome(judged.cases);
    if m.judgeMode == Oi {
      OiIsWeighted(m);
      AcceptedWeightIsPart(m, judged.cases);
      assert m.cases[..|m.cases|] == m.cases;
      assert AllAccepted(r.cases) <==> AllAccepted(judged.cases) by {
        assert forall i :: 0 <= i < |r.cases| ==> r.cases[i] == ScoredCase(m.cases[i], judged.cases[i]);
      }
    }
  }

  /** Under OI the score is the sum of the weights of the accepted cases, out of the sum of all weights. */
  lemma ScoreIsAcceptedWeight(m: Manifest, judged: CanonicalResult, r: CanonicalResult)
    requires ValidManifest(m) && Final(m, judged, r) && m.judgeMode == Oi
    ensures r.score == Some(AcceptedWeight(m, judged.cases)) && r.totalScore == Some(WeightSum(m.cases))
    ensures 0 <= r.score.value <= r.totalScore.value <= MAX_TOTAL_SCORE && 0 < r.totalScore.value
  {
    OiIsWeighted(m);
    AcceptedWeightIsPart(m, judged.cases);
    assert m.cases[..|m.cases|] == m.cases;
    PositiveWeights(m, |m.cases|);
    if judged.cases == [] {
      assert m.cases[..0] == [];
    }
  }

  // --------------------------------------------------------------- durable result

  function DurableCase(item: CanonicalCase): Results.DurableCaseResult
  {
    Results.DurableCaseResult(
      item.caseId, Label(item.status), item.timeMillis, item.memoryKb * 1024, item.score, item.maxScore)
  }

  function DurableCases(cases: seq<CanonicalCase>): (r: seq<Results.DurableCaseResult>)
    ensures |r| == |cases| && forall i :: 0 <= i < |cases| ==> r[i] == DurableCase(cases[i])
  {
    seq(|cases|, i requires 0 <= i < |cases| => DurableCase(cases[i]))
  }

  function Durable(r: CanonicalResult): Results.DurableJobResult
  {
    Results.DurableJobResult(Label(r.status), if r.status == CompileError then "FAILED" else "SUCCEEDED", r.timeMillis,
                             r.memoryKb * 1024,
                             r.score, r.totalScore, DurableCases(r.cases))
  }

  lemma LabelsAreDistinct(s: Status)
    ensures Label(s) == "ACCEPTED" <==> s == Accepted
    ensures Label(s) == "COMPILE_ERROR" <==> s == CompileError
    ensures Label(s) == "WRONG_ANSWER" <==> s == WrongAnswer
  {
  }

  lemma LabelsAreValid(s: Status)
    ensures Results.ValidLabel(Label(s), 64)
  {
    match s
    case Accepted => Results.AsciiLabel("ACCEPTED", 64);
    case CompileError => Results.AsciiLabel("COMPILE_ERROR", 64);
    case WrongAnswer => Results.AsciiLabel("WRONG_ANSWER", 64);
    case _ => FailureLabelsAreValid(s);
  }

  lemma FailureLabelsAreValid(s: Status)
    requires s != Accepted && s != CompileError && s != WrongAnswer
    ensures Results.ValidLabel(Label(s), 64)
  {
    match s
    case TimeLimitExceeded => Results.AsciiLabel("TIME_LIMIT_EXCEEDED", 64);
    case MemoryLimitExceeded => Results.AsciiLabel("MEMORY_LIMIT_EXCEEDED", 64);
    case RuntimeError => Results.AsciiLabel("RUNTIME_ERROR", 64);
    case OutputLimitExceeded => Results.AsciiLabel("OUTPUT_LIMIT_EXCEEDED", 64);
    case SystemError => Results.AsciiLabel("SYSTEM_ERROR", 64);
  }

  lemma CompileLabels()
    ensures Results.ValidLabel("FAILED", 64) && Results.ValidLabel("SUCCEEDED", 64) && "FAILED" != "SUCCEEDED"
  {
    Results.AsciiLabel("FAILED", 64);
    Results.AsciiLabel("SUCCEEDED", 64);
    assert |"FAILED"| == 6 && |"SUCCEEDED"| == 9;
  }

  lemma CaseIdIsLabel(id: string)
    requires ValidCaseId(id)
    ensures Results.ValidLabel(id, 128)
  {
    Results.AsciiLabel(id, 128);
  }

  lemma CaseStatuses(m: Manifest, judged: CanonicalResult, r: CanonicalResult, i: nat)
    requires Final(m, judged, r) && i < |r.cases|
    ensures |r.cases| == |judged.cases| <= |m.cases| && r.cases[i].status == judged.cases[i].status
    ensures CaseJudged(m.cases[i], judged.cases[i])
    ensures r.cases[i].caseId == m.cases[i].id && r.cases[i].timeMillis == judged.cases[i].timeMillis
    ensures r.cases[i].memoryKb == judged.cases[i].memoryKb
  {
  }

  /** One case of the durable result passes its own checks. */
  lemma DurableCaseIsValid(m: Manifest, judged: CanonicalResult, r: CanonicalResult, i: nat)
    requires ValidManifest(m) && Final(m, judged, r) && i < |r.cases|
    ensures Results.ValidCase(r.score.Some?, DurableCase(r.cases[i]))
  {
    CaseStatuses(m, judged, r, i);
    assert ValidCase(m, i);
    CaseIdIsLabel(m.cases[i].id);
    LabelsAreValid(r.cases[i].status);
    LabelsAreDistinct(r.cases[i].status);
    if m.judgeMode == Oi {
      assert r.cases[i] == ScoredCase(m.cases[i], judged.cases[i]);
    }
  }

  lemma DurableCasesAreValid(m: Manifest, judged: CanonicalResult, r: CanonicalResult)
    requires ValidManifest(m) && Final(m, judged, r)
    ensures Results.ValidCases(r.score.Some?, DurableCases(r.cases))
  {
    var cases := DurableCases(r.cases);
    forall i | 0 <= i < |cases| ensures Results.ValidCase(r.score.Some?, cases[i]) {
      DurableCaseIsValid(m, judged, r, i);
    }
    forall i, j | 0 <= i < j < |cases| ensures cases[i].caseId != cases[j].caseId {
      CaseStatuses(m, judged, r, i);
      CaseStatuses(m, judged, r, j);
      assert m.cases[..|m.cases|] == m.cases;
      assert m.cases[i].id != m.cases[j].id;
    }
  }

  lemma FinalMetrics(m: Manifest, judged: CanonicalResult, r: CanonicalResult)
    requires Final(m, judged, r)
    ensures 0 <= r.timeMillis <= 2 * MAX_TIME && 0 <= r.memoryKb <= MAX_MEMORY_KB && |r.cases| <= |m.cases|
  {
    forall i | 0 <= i < |judged.cases|
      ensures 0 <= judged.cases[i].timeMillis <= 2 * MAX_TIME && 0 <= judged.cases[i].memoryKb <= MAX_MEMORY_KB
    {
      assert CaseJudged(m.cases[i], judged.cases[i]);
    }
    MaximaAreBounded(judged.cases, 2 * MAX_TIME);
  }

  lemma FinalScores(m: Manifest, judged: CanonicalResult, r: CanonicalResult)
    requires ValidManifest(m) && Final(m, judged, r)
    ensures Results.ValidScorePair(r.score, r.totalScore)
  {
    if m.judgeMode == Oi {
      ScoreIsAcceptedWeight(m, judged, r);
    }
  }

  lemma DurableHeaderIsValid(m: Manifest, judged: CanonicalResult, r: CanonicalResult)
    requires ValidManifest(m) && |m.cases| <= MAX_BATCH_CASES && Final(m, judged, r)
    ensures Results.ValidHeader(Durable(r))
  {
    LabelsAreValid(r.status);
    CompileLabels();
    FinalMetrics(m, judged, r);
    FinalScores(m, judged, r);
  }

  /** Adding up the scored cases gives the score and the total. */
  lemma {:induction false} ScoresAddUp(m: Manifest, judged: seq<CanonicalCase>, cases: seq<Results.DurableCaseResult>)
    requires |cases| == |judged| <= |m.cases|
    requires forall i :: 0 <= i < |cases| ==> cases[i] == DurableCase(ScoredCase(m.cases[i], judged[i]))
    ensures Results.ScoreSum(cases) == AcceptedWeight(m, judged)
    ensures Results.MaximumSum(cases) == WeightSum(m.cases[..|cases|])
  {
    if cases != [] {
      var n := |cases| - 1;
      ScoresAddUp(m, judged[..n], cases[..n]);
      assert m.cases[..n + 1][..n] == m.cases[..n];
    }
  }

  lemma DurableSums(m: Manifest, judged: CanonicalResult, r: CanonicalResult)
    requires ValidManifest(m) && Final(m, judged, r) && m.judgeMode == Oi
    ensures r.score.Some? && r.totalScore.Some? && Results.ScoreSum(Durable(r).cases) == r.score.value
    ensures judged.cases != [] ==> Results.MaximumSum(Durable(r).cases) == r.totalScore.value
    ensures judged.cases == [] ==> r.score.value == 0
  {
    var cases := Durable(r).cases;
    ScoreIsAcceptedWeight(m, judged, r);
    forall i | 0 <= i < |cases| ensures cases[i] == DurableCase(ScoredCase(m.cases[i], judged.cases[i])) {}
    ScoresAddUp(m, judged.cases, cases);
    assert m.cases[..|m.cases|] == m.cases;
    assert AcceptedWeight(m, []) == 0;
  }

  /** A scored result balances unless it is a compile error with cases. */
  lemma DurableScoresBalance(m: Manifest, judged: CanonicalResult, r: CanonicalResult)
    requires ValidManifest(m) && Final(m, judged, r) && m.judgeMode == Oi && Results.ValidHeader(Durable(r))
    ensures Results.ScoresBalance(Durable(r)) <==> judged.status != CompileError || judged.cases == []
  {
    DurableSums(m, judged, r);
    BalanceOf(Durable(r), r.status, judged.cases == []);
  }

  lemma BalanceOf(d: Results.DurableJobResult, status: Status, none: bool)
    requires Results.ValidScorePair(d.score, d.totalScore) && d.score.Some?
    requires d.verdict == Label(status) && d.compileStatus == if status == CompileError then "FAILED" else "SUCCEEDED"
    requires Results.ScoreSum(d.cases) == d.score.value && (!none ==> Results.MaximumSum(d.cases) == d.totalScore.value)
    requires none == (d.cases == []) && (none ==> d.score.value == 0 && status == CompileError)
    requires status != CompileError ==> status == if d.score.value == d.totalScore.value then Accepted else WrongAnswer
    ensures Results.ScoresBalance(d) <==> status != CompileError || none
  {
  }

  /**
   * Every result the pipeline can produce is accepted by the durable validator, with exactly one exception: under OI,
   * a case (not the compiler) reports a compile error and is the first case that fails.
   */
  lemma DurableIsValid(m: Manifest, judged: CanonicalResult, r: CanonicalResult)
    requires ValidManifest(m) && |m.cases| <= MAX_BATCH_CASES && Final(m, judged, r)
    ensures Results.ValidResult(Durable(r)) <==>
      !(m.judgeMode == Oi && judged.cases != [] && Verdict(judged.cases) == CompileError)
  {
    DurableHeaderIsValid(m, judged, r);
    DurableCasesAreValid(m, judged, r);
    if m.judgeMode == Oi {
      DurableScoresBalance(m, judged, r);
    }
  }

  // ------------------------------------------------- the verdict, from the answer

  /** The verdict is that of the first case that is not ACCEPTED. */
  lemma {:induction false} VerdictIsFirst(cases: seq<CanonicalCase>, k: nat)
    requires k < |cases| && AllAccepted(cases[..k]) && cases[k].status != Accepted
    ensures Verdict(cases) == cases[k].status
    decreases |cases|
  {
    var n := |cases| - 1;
    if k == n {
      VerdictIsSome(cases[..n]);
    } else {
      assert cases[..n][..k] == cases[..k];
      VerdictIsFirst(cases[..n], k);
    }
  }

  /** Rejudging only ever turns ACCEPTED into WRONG_ANSWER. */
  predicate OnlyWorsened(before: seq<CanonicalCase>, after: seq<CanonicalCase>)
  {
    && |after| == |before|
    && forall i :: 0 <= i < |before| ==>
         || after[i].status == before[i].status
         || (before[i].status == Accepted && after[i].status == WrongAnswer)
  }

  lemma RejudgedIsWorsened(
    before: seq<CanonicalCase>, after: seq<CanonicalCase>, events: seq<Event>, verdicts: seq<Option<bool>>)
    requires RejudgedCases(before, after, events, verdicts)
    ensures OnlyWorsened(before, after)
  {
    var indexes := AcceptedIndexes(before, |before|);
    forall i | 0 <= i < |before|
      ensures after[i].status == before[i].status || (before[i].status == Accepted && after[i].status == WrongAnswer)
    {
      if indexes != [] && i in indexes {
        var k :| 0 <= k < |indexes| && indexes[k] == i;
      }
    }
  }

  /** So it cannot make a compile error the first failure. */
  lemma {:induction false} WorseningKeepsCompileErrors(before: seq<CanonicalCase>, after: seq<CanonicalCase>)
    requires OnlyWorsened(before, after)
    ensures Verdict(after) == CompileError ==> Verdict(before) == CompileError
    ensures Verdict(after) == Accepted ==> Verdict(before) == Accepted
  {
    if before != [] {
      var n := |before| - 1;
      assert OnlyWorsened(before[..n], after[..n]);
      WorseningKeepsCompileErrors(before[..n], after[..n]);
    }
  }

  /** The first failure the answer reports is a compile error of a case. */
  predicate CaseCompileErrorFirst(first: seq<CanonicalCase>)
  {
    first != [] && Verdict(first) == CompileError
  }

  /** In terms of the events: after cases judged ACCEPTED, one with the sandbox status for compile errors. */
  lemma CompileErrorEventFirst(m: Manifest, stopRequested: bool, expected: seq<string>, events: seq<Event>)
    requires Answered(m, stopRequested, events) && |expected| == |m.cases|
    ensures CaseCompileErrorFirst(FirstCases(m, stopRequested, expected, events)) <==>
      && !CompileOnly(events)
      && exists k :: 0 <= k < |events| - 1 && CompileErrorAt(m.checker.value, expected, events, k)
  {
    var first := FirstCases(m, stopRequested, expected, events);
    if !CompileOnly(events) {
      if k :| 0 <= k < |events| - 1 && CompileErrorAt(m.checker.value, expected, events, k) {
        KnownIsMapped(events[k].result.value.status);
        assert AllAccepted(first[..k]) by {
          forall i | 0 <= i < k ensures first[..k][i].status == Accepted { assert first[i] == first[..k][i]; }
        }
        VerdictIsFirst(first, k);
      }
      if Verdict(first) == CompileError {
        var k := FirstFailure(first);
        KnownIsMapped(events[k].result.value.status);
        VerdictIsFirst(first, k);
        forall i | 0 <= i < k ensures first[i].status == Accepted { assert first[..k][i] == first[i]; }
        assert CompileErrorAt(m.checker.value, expected, events, k);
      }
    }
  }

  predicate CompileErrorAt(checker: Checker, expected: seq<string>, events: seq<Event>, k: nat)
    requires k < |events| && |events| - 1 <= |expected|
  {
    && k < |expected|
    && (forall i :: 0 <= i <= k ==> events[i].Event? && events[i].result.Some?)
    && (forall i :: 0 <= i < k ==> CaseVerdict(checker, events[i].result.value, expected[i]) == Accepted)
    && events[k].result.value.status == "Compile Error"
  }

  lemma {:induction false} FirstFailure(cases: seq<CanonicalCase>) returns (k: nat)
    requires Verdict(cases) != Accepted
    ensures k < |cases| && AllAccepted(cases[..k]) && cases[k].status != Accepted
  {
    var n := |cases| - 1;
    if Verdict(cases[..n]) == Accepted {
      k := n;
      VerdictIsSome(cases[..n]);
    } else {
      k := FirstFailure(cases[..n]);
      assert cases[..n][..k] == cases[..k];
    }
  }

  /** What the special judge does not change: whether a compile error of a case comes first. */
  lemma JudgedCompileError(
    m: Manifest, stopRequested: bool, expected: seq<string>, events: seq<Event>,
    checkerEvents: seq<Event>, verdicts: seq<Option<bool>>, judged: CanonicalResult, r: CanonicalResult)
    requires |expected| == |m.cases|
    requires Outcome(m, stopRequested, expected, events, checkerEvents, verdicts, judged, r)
    ensures
      var first := FirstCases(m, stopRequested, expected, events);
      && (CaseCompileErrorFirst(judged.cases) <==> CaseCompileErrorFirst(first))
      && (CaseCompileErrorFirst(first) ==> judged.cases == first)
  {
    var first := FirstCases(m, stopRequested, expected, events);
    if NeedsSpecialJudge(m, first) {
      RejudgedIsWorsened(first, judged.cases, checkerEvents, verdicts);
      WorseningKeepsCompileErrors(first, judged.cases);
    }
  }

  /**
   * For every manifest and every answer: the durable validator accepts what comes out, unless it is OI and the first
   * failure the answer reports is a compile error of a case.
   */
  lemma ResultIsDurable(
    m: Manifest, stopRequested: bool, expected: seq<string>, events: seq<Event>,
    checkerEvents: seq<Event>, verdicts: seq<Option<bool>>, judged: CanonicalResult, r: CanonicalResult)
    requires |expected| == |m.cases|
    requires Outcome(m, stopRequested, expected, events, checkerEvents, verdicts, judged, r)
    ensures Results.ValidResult(Durable(r)) <==>
      !(m.judgeMode == Oi && CaseCompileErrorFirst(FirstCases(m, stopRequested, expected, events)))
  {
    JudgedCompileError(m, stopRequested, expected, events, checkerEvents, verdicts, judged, r);
    DurableIsValid(m, judged, r);
  }

  predicate ReportsCompileError(e: Event)
  {
    e.Event? && e.kind == CaseResult && e.result.Some? && e.result.value.status == "Compile Error"
  }

  /** In particular when no case event reports a compile error. */
  lemma NoCompileErrorEventIsDurable(
    m: Manifest, stopRequested: bool, expected: seq<string>, events: seq<Event>,
    checkerEvents: seq<Event>, verdicts: seq<Option<bool>>, judged: CanonicalResult, r: CanonicalResult)
    requires |expected| == |m.cases|
    requires Outcome(m, stopRequested, expected, events, checkerEvents, verdicts, judged, r)
    ensures (forall i :: 0 <= i < |events| ==> !ReportsCompileError(events[i])) ==> Results.ValidResult(Durable(r))
  {
    CompileErrorEventFirst(m, stopRequested, expected, events);
    ResultIsDurable(m, stopRequested, expected, events, checkerEvents, verdicts, judged, r);
    if !CompileOnly(events) && forall i :: 0 <= i < |events| ==> !ReportsCompileError(events[i]) {
      forall k | 0 <= k < |events| - 1 ensures !CompileErrorAt(m.checker.value, expected, events, k) {
        assert CaseEvent(events[k], RequestOf(m, stopRequested).caseIds[k]);
      }
    }
  }

  predicate DurableVerdict(s: Status)
  {
    s != SystemError
  }

  predicate CanonicalMetrics(time: int, memoryKb: int)
  {
    time >= 0 && 0 <= memoryKb <= 0x7FFF_FFFF_FFFF_FFFF / 1024
  }

  predicate CanonicalCaseOk(item: CanonicalCase)
  {
    && item.caseId != "" && DurableVerdict(item.status) && CanonicalMetrics(item.timeMillis, item.memoryKb)
    && Results.ValidScorePair(item.score, item.maxScore)
  }

  predicate Convertible(r: CanonicalResult)
  {
    && DurableVerdict(r.status) && CanonicalMetrics(r.timeMillis, r.memoryKb)
    && Results.ValidScorePair(r.score, r.totalScore)
    && forall i :: 0 <= i < |r.cases| ==> CanonicalCaseOk(r.cases[i])
  }

  /** Every result of the pipeline converts; only the validator at the end can refuse it. */
  lemma FinalIsConvertible(m: Manifest, judged: CanonicalResult, r: CanonicalResult)
    requires ValidManifest(m) && |m.cases| <= MAX_BATCH_CASES && Final(m, judged, r)
    ensures Convertible(r)
  {
    DurableHeaderIsValid(m, judged, r);
    forall i | 0 <= i < |r.cases| ensures CanonicalCaseOk(r.cases[i]) {
      CaseStatuses(m, judged, r, i);
      DurableCaseIsValid(m, judged, r, i);
    }
    FinalMetrics(m, judged, r);
    FinalScores(m, judged, r);
  }

  /** `durableResult`: convert case by case, then validate. */
  method DurableResult(r: CanonicalResult) returns (d: Option<Results.DurableJobResult>)
    ensures d.Some? <==> Convertible(r) && Results.ValidResult(Durable(r))
    ensures d.Some? ==> d.value == Durable(r)
  {
    if !DurableVerdict(r.status) || !CanonicalMetrics(r.timeMillis, r.memoryKb) {
      return None;
    }
    if !Results.ValidScorePair(r.score, r.totalScore) {
      return None;
    }
    var compileStatus := "SUCCEEDED";
    if r.status == CompileError {
      compileStatus := "FAILED";
    }
    var cases := [];
    var i := 0;
    while i < |r.cases|
      invariant i <= |r.cases| && cases == DurableCases(r.cases)[..i]
      invariant forall k :: 0 <= k < i ==> CanonicalCaseOk(r.cases[k])
    {
      var item := r.cases[i];
      if !CanonicalCaseOk(item) {
        return None;
      }
      var converted := Results.DurableCaseResult(
        item.caseId, Label(item.status), item.timeMillis, item.memoryKb * 1024, item.score, item.maxScore);
      cases := cases + [converted];
      i := i + 1;
    }
    assert cases == DurableCases(r.cases);
    var durable := Results.DurableJobResult(
      Label(r.status), compileStatus, r.timeMillis, r.memoryKb * 1024, r.score, r.totalScore, cases);
    var valid := Results.ValidateDurableJobResult(durable);
    d := if valid then Some(durable) else None;
  }

  // --------------------------------------------------------------------- callback

  datatype CallbackIdentity = CallbackIdentity(resultId: string, submissionId: int, attemptNo: int)

  predicate ValidIdentity(id: CallbackIdentity)
  {
    Results.ValidLabel(id.resultId, 128) && id.submissionId > 0 && id.attemptNo > 0
  }

  predicate ValidOiStatus(status: Status, score: int, total: int)
  {
    if status == CompileError then score == 0
    else if score == total then status == Accepted
    else status == WrongAnswer
  }

  /** `callback.validateResult` for the result the pipeline hands on; standard output is always empty. */
  predicate ValidCallback(id: CallbackIdentity, r: CanonicalResult)
  {
    && ValidIdentity(id)
    && 0 <= r.timeMillis <= 172_800_000 && 0 <= r.memoryKb <= 2_147_483_647
    && Results.ValidScorePair(r.score, r.totalScore)
    && (r.score.Some? ==> ValidOiStatus(r.status, r.score.value, r.totalScore.value))
    && Utf16Length(r.stderr) <= 65_536 && Utf16Length(r.compileError) <= 32_768
    && (r.status == Accepted ==> r.exitCode == 0)
    && (r.status == CompileError ==> !Blank(r.compileError))
  }

  lemma RedactedFits()
    ensures Utf16Length(REDACTED) <= 32_768 && !Blank(REDACTED)
  {
    StderrFits(REDACTED);
    assert REDACTED[0] == 'c';
  }

  /** The callback validator refuses one kind of result only: an OI compile error that scored. */
  lemma CallbackIsValid(m: Manifest, judged: CanonicalResult, r: CanonicalResult, id: CallbackIdentity)
    requires ValidManifest(m) && Final(m, judged, r) && ValidIdentity(id)
    ensures ValidCallback(id, r) <==>
      !(m.judgeMode == Oi && judged.status == CompileError && AcceptedWeight(m, judged.cases) != 0)
  {
    RedactedFits();
    FinalMetrics(m, judged, r);
    VerdictIsSome(judged.cases);
    if m.judgeMode == Oi {
      ScoreIsAcceptedWeight(m, judged, r);
    }
  }

  /**
   * For every manifest and every answer: the callback validator refuses exactly that case, and only if something
   * scored.
   */
  lemma ResultIsPublishable(
    m: Manifest, stopRequested: bool, expected: seq<string>, events: seq<Event>,
    checkerEvents: seq<Event>, verdicts: seq<Option<bool>>, judged: CanonicalResult, r: CanonicalResult,
    id: CallbackIdentity)
    requires |expected| == |m.cases| && ValidIdentity(id)
    requires Outcome(m, stopRequested, expected, events, checkerEvents, verdicts, judged, r)
    ensures
      var first := FirstCases(m, stopRequested, expected, events);
      |first| <= |m.cases| &&
      (ValidCallback(id, r) <==> !(m.judgeMode == Oi && CaseCompileErrorFirst(first) && AcceptedWeight(m, first) != 0))
  {
    JudgedCompileError(m, stopRequested, expected, events, checkerEvents, verdicts, judged, r);
    CallbackIsValid(m, judged, r, id);
    assert judged.cases == [] ==> AcceptedWeight(m, judged.cases) == 0;
  }

  /** Whatever the durable validator accepts, the callback validator accepts too. */
  lemma DurableImpliesCallback(m: Manifest, judged: CanonicalResult, r: CanonicalResult, id: CallbackIdentity)
    requires ValidManifest(m) && |m.cases| <= MAX_BATCH_CASES && Final(m, judged, r) && ValidIdentity(id)
    requires Results.ValidResult(Durable(r))
    ensures ValidCallback(id, r)
  {
    DurableIsValid(m, judged, r);
    CallbackIsValid(m, judged, r, id);
  }

  // ----------------------------------------------------------- judging end to end

  /**
   * A run of the worker: judge, then convert for the job table. What is lost is exactly what the sandbox or the checker
   * answered badly, and an OI answer whose first failure is a compile error of a case.
   */
  method JudgeDurably(
    m: Manifest, stopRequested: bool, expected: seq<string>, events: seq<Event>, checkerEvents: seq<Event>,
    verdicts: seq<Option<bool>>)
    returns (d: Option<Results.DurableJobResult>)
    requires |expected| == |m.cases| && |verdicts| + 1 >= |checkerEvents|
    ensures d.Some? <==>
      && ComesOut(m, stopRequested, expected, events, checkerEvents, verdicts)
      && !(m.judgeMode == Oi && CaseCompileErrorFirst(FirstCases(m, stopRequested, expected, events)))
    ensures d.Some? ==> Results.ValidResult(d.value)
  {
    var r, judged := ExecuteCanonical(m, stopRequested, expected, events, checkerEvents, verdicts);
    if r == None {
      return None;
    }
    ResultIsDurable(m, stopRequested, expected, events, checkerEvents, verdicts, judged, r.value);
    FinalIsConvertible(m, judged, r.value);
    d := DurableResult(r.value);
  }

  // --------------------------------------------------------- the exceptions exist

  /** Cases before `k` accepted, all others with a compile error of their own. */
  function BrokenStream(m: Manifest, k: nat, stdout: seq<string>): seq<Event>
    requires |stdout| == |m.cases|
  {
    seq(|m.cases|, i requires 0 <= i < |m.cases| =>
      Event(
        CaseResult, m.cases[i].id,
        Some(SandboxResult(if i < k then "Accepted" else "Compile Error", stdout[i], 0, 0, 1))))
      + [Event(Completed, "", None)]
  }

  /** The pipeline takes the stream, for every OI manifest, every `k` and every expected output. */
  lemma BrokenStreamIsJudged(m: Manifest, stopRequested: bool, expected: seq<string>, k: nat)
    requires ValidManifest(m) && |m.cases| <= MAX_BATCH_CASES && m.judgeMode == Oi
    requires |expected| == |m.cases| && k < |m.cases|
    ensures ComesOut(m, stopRequested, expected, BrokenStream(m, k, expected), [], [])
    ensures
      var first := FirstCases(m, stopRequested, expected, BrokenStream(m, k, expected));
      |first| == |m.cases| && CaseCompileErrorFirst(first) && (k > 0 <==> AcceptedWeight(m, first) != 0)
  {
    var events := BrokenStream(m, k, expected);
    assert Answered(m, stopRequested, events) by { BrokenStreamIsValid(m, stopRequested, expected, k); }
    var first := FirstCases(m, stopRequested, expected, events);
    forall i | 0 <= i < |first| ensures first[i].status == if i < k then Accepted else CompileError {
      KnownIsMapped("Accepted");
      KnownIsMapped("Compile Error");
      SameOutputsMatch(m.checker.value, expected[i]);
    }
    assert AllAccepted(first[..k]);
    VerdictIsFirst(first, k);
    OiIsWeighted(m);
    AcceptedPrefixWeight(m, first, k);
  }

  lemma BrokenStreamIsValid(m: Manifest, stopRequested: bool, expected: seq<string>, k: nat)
    requires ValidManifest(m) && m.judgeMode == Oi && |expected| == |m.cases| && k < |m.cases|
    ensures ValidEvents(RequestOf(m, stopRequested), BrokenStream(m, k, expected))
    ensures !CompileOnly(BrokenStream(m, k, expected))
  {
    var r, events := RequestOf(m, stopRequested), BrokenStream(m, k, expected);
    forall i | 0 <= i < |m.cases| ensures CaseEvent(events[i], r.caseIds[i]) {
      KnownIsMapped("Accepted");
      KnownIsMapped("Compile Error");
    }
    assert CaseStream(r, events);
  }

  lemma SameOutputsMatch(checker: Checker, text: string)
    ensures checker != Special ==> OutputsMatch(checker, text, text)
  {
  }

  /** The weight of a list whose accepted cases are exactly its first `k`. */
  lemma {:induction false} AcceptedPrefixWeight(m: Manifest, cases: seq<CanonicalCase>, k: nat)
    requires |cases| <= |m.cases| && Weighted(m)
    requires forall i :: 0 <= i < |cases| ==> (cases[i].status == Accepted <==> i < k)
    ensures AcceptedWeight(m, cases) >= 0
    ensures AcceptedWeight(m, cases) != 0 <==> k > 0 && cases != []
  {
    if cases != [] {
      AcceptedPrefixWeight(m, cases[..|cases| - 1], k);
    }
  }

  /**
   * What comes of it is refused for the job table always, and for the callback as soon as one case was accepted.
   */
  lemma BrokenStreamIsRefused(
    m: Manifest, stopRequested: bool, expected: seq<string>, k: nat, judged: CanonicalResult, r: CanonicalResult,
    id: CallbackIdentity)
    requires ValidManifest(m) && |m.cases| <= MAX_BATCH_CASES && m.judgeMode == Oi
    requires |expected| == |m.cases| && k < |m.cases| && ValidIdentity(id)
    requires Outcome(m, stopRequested, expected, BrokenStream(m, k, expected), [], [], judged, r)
    ensures !Results.ValidResult(Durable(r))
    ensures ValidCallback(id, r) <==> k == 0
  {
    BrokenStreamIsJudged(m, stopRequested, expected, k);
    ResultIsDurable(m, stopRequested, expected, BrokenStream(m, k, expected), [], [], judged, r);
    ResultIsPublishable(m, stopRequested, expected, BrokenStream(m, k, expected), [], [], judged, r, id);
  }

  /** A smallest manifest with two scored cases. */
  function TwoCases(): Manifest
  {
    Manifest(2, Oi, Some(Exact), 1000, 64, Some(2), None, [Case("1", "a", "b", 1), Case("2", "c", "d", 1)])
  }

  lemma TwoCasesAreValid()
    ensures ValidManifest(TwoCases())
  {
    var m := TwoCases();
    PlainNamesAreValid('a');
    PlainNamesAreValid('b');
    PlainNamesAreValid('c');
    PlainNamesAreValid('d');
    assert ValidCase(m, 0) && ValidCase(m, 1);
    assert Files(m, 2) == ["a", "b", "c", "d"] by {
      assert Files(m, 1) == ["a", "b"];
    }
    assert m.cases[..2] == m.cases && m.cases[..1] == [m.cases[0]];
    assert WeightSum(m.cases[..1]) == 1;
  }

  lemma PlainNamesAreValid(c: char)
    requires 'a' <= c <= 'z'
    ensures ValidFile([c])
  {
    AsciiLength([c]);
    var rest := Split([c][1..], '/');
    assert [c][1..] == "" && rest == [""];
    assert [c] + rest[0] == [c];
    assert Split([c], '/') == [[c] + rest[0]] + rest[1..];
    assert Components([c]) == [[c]];
  }

  /** ACCEPTED, then a compile error: the pipeline judges that answer, and both validators refuse its result. */
  method RefusedRun(id: CallbackIdentity) returns (r: CanonicalResult)
    requires ValidIdentity(id)
    ensures !Results.ValidResult(Durable(r)) && !ValidCallback(id, r)
  {
    var m, expected := TwoCases(), ["x", "y"];
    TwoCasesAreValid();
    BrokenStreamIsJudged(m, false, expected, 1);
    var result, judged := ExecuteCanonical(m, false, expected, BrokenStream(m, 1, expected), [], []);
    BrokenStreamIsRefused(m, false, expected, 1, judged, result.value, id);
    r := result.value;
  }
}
