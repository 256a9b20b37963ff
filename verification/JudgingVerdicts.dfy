/**
 * What the pipeline answers, read off its inputs: the sandbox's statuses and outputs, the expected outputs and the
 * special judge's verdicts.
 */
module JudgingVerdicts {
  import opened Options
  import opened Checkers
  import opened Manifests
  import opened Judging
  import opened JudgingResults

  /** The verdict has the name of the sandbox's status. */
  predicate Named(text: string, s: Status)
  {
    && (s == Accepted <==> text == "Accepted")
    && (s == CompileError <==> text == "Compile Error")
    && (s == WrongAnswer <==> text == "Wrong Answer")
    && (s == TimeLimitExceeded <==> text == "Time Limit Exceeded")
    && (s == MemoryLimitExceeded <==> text == "Memory Limit Exceeded")
    && (s == RuntimeError <==> text == "Runtime Error")
    && (s == OutputLimitExceeded <==> text == "Output Limit Exceeded")
  }

  lemma StatusesAreNamed(text: string)
    ensures Named(text, MapStatus(text))
  {
  }

  /** The outputs agree: the same tokens for the token checker, the same normal form for the exact one. */
  predicate Agree(checker: Checker, actual: string, expected: string)
  {
    && (checker == Token ==> Fields(actual) == Fields(expected))
    && (checker == Exact ==> Normalize(actual) == Normalize(expected))
  }

  function Clamp(used: int, limit: nat): int
  {
    if used < 0 then 0 else if used < limit then used else limit
  }

  /** The metrics of a case are those of its run, within their limits. */
  predicate MetricsOf(run: SandboxResult, item: CanonicalCase)
  {
    item.timeMillis == Clamp(run.timeUsed, MAX_TIME) && item.memoryKb == Clamp(run.memoryUsed, MAX_MEMORY_KB)
  }

  predicate Ran(e: Event, status: string)
  {
    e.Event? && e.result.Some? && e.result.value.status == status
  }

  /** What one event says about its case. */
  predicate CaseAnswer(checker: Checker, e: Event, expected: string, item: CanonicalCase)
  {
    && e.Event? && e.result.Some? && item.caseId == e.caseId && MetricsOf(e.result.value, item)
    && var run := e.result.value;
       if run.status == "Accepted"
       then item.status == if Agree(checker, run.stdout, expected) then Accepted else WrongAnswer
       else Named(run.status, item.status)
  }

  lemma JudgedCaseAnswers(checker: Checker, e: Event, expected: string)
    requires e.Event? && e.result.Some?
    ensures CaseAnswer(checker, e, expected, JudgedCase(checker, e, expected))
  {
    StatusesAreNamed(e.result.value.status);
  }

  /** What the contestant's batch alone says about every case it ran. */
  lemma FirstCasesAnswer(m: Manifest, stopRequested: bool, expected: seq<string>, events: seq<Event>)
    requires Answered(m, stopRequested, events) && |expected| == |m.cases| && !CompileOnly(events)
    ensures
      var first := FirstCases(m, stopRequested, expected, events);
      && |first| == |events| - 1 && 1 <= |first| <= |m.cases|
      && forall i :: 0 <= i < |first| ==>
           first[i].caseId == m.cases[i].id && CaseAnswer(m.checker.value, events[i], expected[i], first[i])
  {
    var first := FirstCases(m, stopRequested, expected, events);
    var request := RequestOf(m, stopRequested);
    forall i | 0 <= i < |first|
      ensures first[i].caseId == m.cases[i].id && CaseAnswer(m.checker.value, events[i], expected[i], first[i])
    {
      assert CaseEvent(events[i], request.caseIds[i]);
      JudgedCaseAnswers(m.checker.value, events[i], expected[i]);
    }
  }

  /** Scoring changes neither the case's identity nor its verdict or metrics. */
  predicate SameCase(a: CanonicalCase, b: CanonicalCase)
  {
    a.caseId == b.caseId && a.status == b.status && a.timeMillis == b.timeMillis && a.memoryKb == b.memoryKb
  }

  lemma ScoringKeepsCases(m: Manifest, judged: CanonicalResult, r: CanonicalResult)
    requires Final(m, judged, r)
    ensures |r.cases| == |judged.cases| && forall i :: 0 <= i < |r.cases| ==> SameCase(r.cases[i], judged.cases[i])
  {
    forall i | 0 <= i < |r.cases| ensures SameCase(r.cases[i], judged.cases[i]) {
      CaseStatuses(m, judged, r, i);
      assert CaseJudged(m.cases[i], judged.cases[i]);
    }
  }

  // -------------------------------------------------------------- the whole result

  predicate LargestTime(cases: seq<CanonicalCase>, time: int)
  {
    && (forall i :: 0 <= i < |cases| ==> cases[i].timeMillis <= time)
    && if cases == [] then time == 0 else exists i :: 0 <= i < |cases| && cases[i].timeMillis == time
  }

  predicate LargestMemory(cases: seq<CanonicalCase>, memory: int)
  {
    && (forall i :: 0 <= i < |cases| ==> cases[i].memoryKb <= memory)
    && if cases == [] then memory == 0 else exists i :: 0 <= i < |cases| && cases[i].memoryKb == memory
  }

  lemma {:induction false} MaximaAreLargest(cases: seq<CanonicalCase>)
    requires forall i :: 0 <= i < |cases| ==> 0 <= cases[i].timeMillis && 0 <= cases[i].memoryKb
    ensures LargestTime(cases, MaxTime(cases)) && LargestMemory(cases, MaxMemory(cases))
  {
    if cases != [] {
      var n := |cases| - 1;
      MaximaAreLargest(cases[..n]);
      assert forall i :: 0 <= i < n ==> cases[..n][i] == cases[i];
      if cases[n].timeMillis < MaxTime(cases[..n]) {
        var i :| 0 <= i < n && cases[..n][i].timeMillis == MaxTime(cases[..n]);
        assert cases[i].timeMillis == MaxTime(cases);
      }
      if cases[n].memoryKb < MaxMemory(cases[..n]) {
        var i :| 0 <= i < n && cases[..n][i].memoryKb == MaxMemory(cases[..n]);
        assert cases[i].memoryKb == MaxMemory(cases);
      }
    }
  }

  /** Time and memory of a result are the largest of its cases. */
  lemma ResultMetrics(m: Manifest, judged: CanonicalResult, r: CanonicalResult)
    requires Final(m, judged, r)
    ensures LargestTime(r.cases, r.timeMillis) && LargestMemory(r.cases, r.memoryKb)
  {
    forall i | 0 <= i < |judged.cases| ensures 0 <= judged.cases[i].timeMillis && 0 <= judged.cases[i].memoryKb {
      assert CaseJudged(m.cases[i], judged.cases[i]);
    }
    MaximaAreLargest(judged.cases);
    ScoringKeepsCases(m, judged, r);
    if r.cases != [] {
      var i :| 0 <= i < |judged.cases| && judged.cases[i].timeMillis == judged.timeMillis;
      assert r.cases[i].timeMillis == r.timeMillis;
      var j :| 0 <= j < |judged.cases| && judged.cases[j].memoryKb == judged.memoryKb;
      assert r.cases[j].memoryKb == r.memoryKb;
    }
  }

  /**
   * The first case that is not ACCEPTED decides: the result has its verdict, and under OI any failure but a compile
   * error is a wrong answer.
   */
  lemma FirstFailureDecides(m: Manifest, judged: CanonicalResult, r: CanonicalResult, k: nat)
    requires ValidManifest(m) && Final(m, judged, r)
    requires k < |r.cases| && AllAccepted(r.cases[..k]) && r.cases[k].status != Accepted
    ensures r.status ==
      if m.judgeMode == Oi && r.cases[k].status != CompileError then WrongAnswer else r.cases[k].status
  {
    ScoringKeepsCases(m, judged, r);
    assert AllAccepted(judged.cases[..k]) by {
      forall i | 0 <= i < k ensures judged.cases[..k][i].status == Accepted {
        assert r.cases[..k][i] == r.cases[i] && SameCase(r.cases[i], judged.cases[i]);
      }
    }
    assert SameCase(r.cases[k], judged.cases[k]);
    VerdictIsFirst(judged.cases, k);
    AcceptedMeansEveryCase(m, judged, r);
  }

  // ------------------------------------------------------- without special judge

  /**
   * Without a special judge every case that ran is ACCEPTED if the sandbox accepted it and its output agrees with the
   * expected one, WRONG_ANSWER if it does not agree, and has the verdict of the sandbox's status otherwise.
   */
  lemma CasesAreCompared(
    m: Manifest, stopRequested: bool, expected: seq<string>, events: seq<Event>,
    checkerEvents: seq<Event>, verdicts: seq<Option<bool>>, judged: CanonicalResult, r: CanonicalResult)
    requires |expected| == |m.cases| && m.checker != Some(Special) && !CompileOnly(events)
    requires Outcome(m, stopRequested, expected, events, checkerEvents, verdicts, judged, r)
    ensures |r.cases| == |events| - 1 <= |m.cases|
    ensures forall i :: 0 <= i < |r.cases| ==>
      r.cases[i].caseId == m.cases[i].id && CaseAnswer(m.checker.value, events[i], expected[i], r.cases[i])
  {
    FirstCasesAnswer(m, stopRequested, expected, events);
    ScoringKeepsCases(m, judged, r);
    forall i | 0 <= i < |r.cases|
      ensures r.cases[i].caseId == m.cases[i].id && CaseAnswer(m.checker.value, events[i], expected[i], r.cases[i])
    {
      assert SameCase(r.cases[i], judged.cases[i]);
    }
  }

  /** The sandbox accepted every case of the manifest. */
  predicate AllRan(m: Manifest, events: seq<Event>)
  {
    |events| == |m.cases| + 1 && forall i :: 0 <= i < |m.cases| ==> Ran(events[i], "Accepted")
  }

  /** And every output agrees with the expected one. */
  predicate AllMatched(m: Manifest, expected: seq<string>, events: seq<Event>)
    requires |expected| == |m.cases|
  {
    && AllRan(m, events) && m.checker.Some?
    && forall i :: 0 <= i < |m.cases| ==> Agree(m.checker.value, events[i].result.value.stdout, expected[i])
  }

  /** Without a special judge a result is ACCEPTED if and only if every expected output is matched. */
  lemma AcceptedMeansMatched(
    m: Manifest, stopRequested: bool, expected: seq<string>, events: seq<Event>,
    checkerEvents: seq<Event>, verdicts: seq<Option<bool>>, judged: CanonicalResult, r: CanonicalResult)
    requires |expected| == |m.cases| && m.checker != Some(Special)
    requires Outcome(m, stopRequested, expected, events, checkerEvents, verdicts, judged, r)
    ensures r.status == Accepted <==> AllMatched(m, expected, events)
    ensures CompileOnly(events) ==> r.status == CompileError && r.cases == []
  {
    AcceptedMeansEveryCase(m, judged, r);
    if CompileOnly(events) {
      FailedCompilation(m, stopRequested, expected, events, checkerEvents, verdicts, judged, r);
    } else {
      CasesAreCompared(m, stopRequested, expected, events, checkerEvents, verdicts, judged, r);
      if r.status == Accepted {
        forall i | 0 <= i < |m.cases|
          ensures Ran(events[i], "Accepted") && Agree(m.checker.value, events[i].result.value.stdout, expected[i])
        {
          assert CaseAnswer(m.checker.value, events[i], expected[i], r.cases[i]);
        }
      }
    }
  }

  lemma {:induction false} ExitCodeIsFirst(
    checker: Checker, events: seq<Event>, expected: seq<string>, n: nat, k: nat)
    requires k < n <= |events| && n <= |expected|
    requires forall i :: 0 <= i < n ==> events[i].Event? && events[i].result.Some?
    requires forall i :: 0 <= i < k ==> CaseVerdict(checker, events[i].result.value, expected[i]) == Accepted
    requires CaseVerdict(checker, events[k].result.value, expected[k]) != Accepted
    ensures FirstExitCode(checker, events, expected, n) == events[k].result.value.exitCode
  {
    if k < n - 1 {
      ExitCodeIsFirst(checker, events, expected, n - 1, k);
    }
  }

  /** The exit code is that of the first run that is not judged ACCEPTED. */
  lemma ExitCodeOfFirstFailure(
    m: Manifest, stopRequested: bool, expected: seq<string>, events: seq<Event>,
    checkerEvents: seq<Event>, verdicts: seq<Option<bool>>, judged: CanonicalResult, r: CanonicalResult, k: nat)
    requires |expected| == |m.cases| && m.checker != Some(Special) && !CompileOnly(events)
    requires Outcome(m, stopRequested, expected, events, checkerEvents, verdicts, judged, r)
    requires k < |r.cases| && AllAccepted(r.cases[..k]) && r.cases[k].status != Accepted
    ensures k < |events| && events[k].Event? && events[k].result.Some? && r.exitCode == events[k].result.value.exitCode
  {
    ScoringKeepsCases(m, judged, r);
    assert AllAccepted(judged.cases[..k]) by {
      forall i | 0 <= i < k ensures judged.cases[..k][i].status == Accepted {
        assert r.cases[..k][i] == r.cases[i] && SameCase(r.cases[i], judged.cases[i]);
      }
    }
    assert SameCase(r.cases[k], judged.cases[k]);
    FirstCasesAnswer(m, stopRequested, expected, events);
    AnswerExitCodeIsFirst(m, stopRequested, expected, events, judged.cases, k);
    FirstFailureDecides(m, judged, r, k);
    ScoringKeepsExitCode(m, judged, r);
  }

  /** Scoring changes the exit code only of an ACCEPTED result. */
  lemma ScoringKeepsExitCode(m: Manifest, judged: CanonicalResult, r: CanonicalResult)
    requires Final(m, judged, r) && r.status != Accepted
    ensures r.exitCode == judged.exitCode
  {
  }

  lemma AnswerExitCodeIsFirst(
    m: Manifest, stopRequested: bool, expected: seq<string>, events: seq<Event>, first: seq<CanonicalCase>, k: nat)
    requires Answered(m, stopRequested, events) && |expected| == |m.cases| && !CompileOnly(events)
    requires |first| == |events| - 1 && JudgedSoFar(m.checker.value, events, expected, first)
    requires k < |first| && AllAccepted(first[..k]) && first[k].status != Accepted
    ensures AnswerExitCode(m, stopRequested, expected, events) == events[k].result.value.exitCode
  {
    JudgedExitCode(m.checker.value, events, expected, first, k);
    AnswerExitCodeIs(m, stopRequested, expected, events, events[k].result.value.exitCode);
  }

  lemma JudgedExitCode(
    checker: Checker, events: seq<Event>, expected: seq<string>, cases: seq<CanonicalCase>, k: nat)
    requires JudgedSoFar(checker, events, expected, cases)
    requires k < |cases| && AllAccepted(cases[..k]) && cases[k].status != Accepted
    ensures FirstExitCode(checker, events, expected, |cases|) == events[k].result.value.exitCode
  {
    forall i | 0 <= i < k ensures CaseVerdict(checker, events[i].result.value, expected[i]) == Accepted {
      assert cases[..k][i] == cases[i];
    }
    ExitCodeIsFirst(checker, events, expected, |cases|, k);
  }

  /** A failed compilation is a compile error without cases, whatever the checker. */
  lemma FailedCompilation(
    m: Manifest, stopRequested: bool, expected: seq<string>, events: seq<Event>,
    checkerEvents: seq<Event>, verdicts: seq<Option<bool>>, judged: CanonicalResult, r: CanonicalResult)
    requires |expected| == |m.cases| && CompileOnly(events)
    requires Outcome(m, stopRequested, expected, events, checkerEvents, verdicts, judged, r)
    ensures r.status == CompileError && r.cases == [] && !AllRan(m, events)
  {
    assert judged.cases == [];
    ScoringKeepsCases(m, judged, r);
    assert Ran(events[0], "Compile Error");
  }

  // ---------------------------------------------------------- with special judge

  /** How many of the first `n` events ran accepted. */
  function AcceptedRuns(events: seq<Event>, n: nat): (k: nat)
    requires n <= |events|
    ensures k <= n
  {
    if n == 0 then 0 else AcceptedRuns(events, n - 1) + if Ran(events[n - 1], "Accepted") then 1 else 0
  }

  /** The special judge's cases are the accepted runs, in order. */
  lemma {:induction false} IndexOfRun(cases: seq<CanonicalCase>, events: seq<Event>, n: nat)
    requires n <= |cases| && n <= |events|
    requires forall i :: 0 <= i < n ==> (cases[i].status == Accepted <==> Ran(events[i], "Accepted"))
    ensures |AcceptedIndexes(cases, n)| == AcceptedRuns(events, n)
    ensures forall i :: 0 <= i < n && Ran(events[i], "Accepted") ==>
      AcceptedRuns(events, i) < AcceptedRuns(events, n) && AcceptedIndexes(cases, n)[AcceptedRuns(events, i)] == i
  {
    if n > 0 {
      IndexOfRun(cases, events, n - 1);
    }
  }

  /** What the special judge's run number `k` makes of an accepted run. */
  predicate SpecialAnswer(run: SandboxResult, judge: Event, verdict: Option<bool>, item: CanonicalCase)
  {
    && Ran(judge, "Accepted") && verdict.Some?
    && item.status == (if verdict.value then Accepted else WrongAnswer)
    && item.timeMillis == Clamp(run.timeUsed, MAX_TIME) + Clamp(judge.result.value.timeUsed, MAX_TIME)
    && item.memoryKb ==
         Larger(Clamp(run.memoryUsed, MAX_MEMORY_KB), Clamp(judge.result.value.memoryUsed, MAX_MEMORY_KB))
  }

  /** A case under the special judge: its verdict for accepted runs, the sandbox's for the others. */
  predicate JudgeAnswer(
    events: seq<Event>, checkerEvents: seq<Event>, verdicts: seq<Option<bool>>, i: nat, item: CanonicalCase)
    requires i < |events|
  {
    && events[i].Event? && events[i].result.Some? && item.caseId == events[i].caseId
    && var run := events[i].result.value;
       if run.status == "Accepted" then
         var k := AcceptedRuns(events, i);
         && k < |checkerEvents| && k < |verdicts| && SpecialAnswer(run, checkerEvents[k], verdicts[k], item)
       else Named(run.status, item.status) && MetricsOf(run, item)
  }

  /** The verdict of a first case tells whether it ran accepted. */
  predicate FollowsRuns(cases: seq<CanonicalCase>, events: seq<Event>)
  {
    |cases| < |events| && forall j :: 0 <= j < |cases| ==> (cases[j].status == Accepted <==> Ran(events[j], "Accepted"))
  }

  lemma AcceptedRunIsRejudged(
    before: seq<CanonicalCase>, after: seq<CanonicalCase>, events: seq<Event>,
    checkerEvents: seq<Event>, verdicts: seq<Option<bool>>, i: nat)
    requires FollowsRuns(before, events) && i < |before| && Ran(events[i], "Accepted")
    requires before[i].caseId == events[i].caseId && MetricsOf(events[i].result.value, before[i])
    requires Rejudgeable(before, checkerEvents, verdicts) && RejudgedCases(before, after, checkerEvents, verdicts)
    ensures i < |after| && JudgeAnswer(events, checkerEvents, verdicts, i, after[i])
  {
    IndexOfRun(before, events, |before|);
    var k := AcceptedRuns(events, i);
    RejudgedAt(before, after, checkerEvents, verdicts, k);
    RejudgedIsAnswer(events[i].result.value, before[i], checkerEvents[k], verdicts[k]);
  }

  /** The judge's run number `k` was clean and decided the case it was about. */
  lemma RejudgedAt(
    before: seq<CanonicalCase>, after: seq<CanonicalCase>, checkerEvents: seq<Event>, verdicts: seq<Option<bool>>,
    k: nat)
    requires Rejudgeable(before, checkerEvents, verdicts) && RejudgedCases(before, after, checkerEvents, verdicts)
    requires k < |AcceptedIndexes(before, |before|)|
    ensures k < |checkerEvents| && k < |verdicts| && CleanCase(checkerEvents[k], verdicts[k]) && |after| == |before|
    ensures
      var i := AcceptedIndexes(before, |before|)[k];
      after[i] == Rejudged(before[i], checkerEvents[k].result.value, verdicts[k].value)
  {
  }

  lemma RejudgedIsAnswer(run: SandboxResult, item: CanonicalCase, judge: Event, verdict: Option<bool>)
    requires CleanCase(judge, verdict) && MetricsOf(run, item)
    ensures
      var after := Rejudged(item, judge.result.value, verdict.value);
      after.caseId == item.caseId && SpecialAnswer(run, judge, verdict, after)
  {
  }

  lemma OtherRunIsKept(
    before: seq<CanonicalCase>, after: seq<CanonicalCase>, checkerEvents: seq<Event>, verdicts: seq<Option<bool>>,
    i: nat)
    requires i < |before| && before[i].status != Accepted && RejudgedCases(before, after, checkerEvents, verdicts)
    ensures i < |after| && after[i] == before[i]
  {
    var indexes := AcceptedIndexes(before, |before|);
    assert i !in indexes;
  }

  lemma RejudgedAnswers(
    before: seq<CanonicalCase>, after: seq<CanonicalCase>, expected: seq<string>, events: seq<Event>,
    checkerEvents: seq<Event>, verdicts: seq<Option<bool>>, i: nat)
    requires |before| < |events| && |before| <= |expected| && i < |before|
    requires forall j :: 0 <= j < |before| ==> CaseAnswer(Special, events[j], expected[j], before[j])
    requires Rejudgeable(before, checkerEvents, verdicts) && RejudgedCases(before, after, checkerEvents, verdicts)
    ensures i < |after| && JudgeAnswer(events, checkerEvents, verdicts, i, after[i])
  {
    assert FollowsRuns(before, events) by {
      forall j | 0 <= j < |before| ensures before[j].status == Accepted <==> Ran(events[j], "Accepted") {
        assert CaseAnswer(Special, events[j], expected[j], before[j]);
      }
    }
    assert CaseAnswer(Special, events[i], expected[i], before[i]);
    if Ran(events[i], "Accepted") {
      AcceptedRunIsRejudged(before, after, events, checkerEvents, verdicts, i);
    } else {
      OtherRunIsKept(before, after, checkerEvents, verdicts, i);
    }
  }

  /** The first failure that the sandbox reports is a compile error of a case; the special judge is then not asked. */
  predicate CompileErrorComesFirst(events: seq<Event>)
  {
    exists k :: 0 <= k < |events| && Ran(events[k], "Compile Error") && AllAcceptedBefore(events, k)
  }

  predicate AllAcceptedBefore(events: seq<Event>, k: nat)
    requires k <= |events|
  {
    forall i :: 0 <= i < k ==> Ran(events[i], "Accepted")
  }

  lemma CompileErrorFirstIsReported(expected: seq<string>, events: seq<Event>, first: seq<CanonicalCase>)
    requires |first| < |events| && |first| <= |expected| && Verdict(first) == CompileError
    requires forall j :: 0 <= j < |first| ==> CaseAnswer(Special, events[j], expected[j], first[j])
    ensures CompileErrorComesFirst(events)
  {
    var k := FirstFailure(first);
    VerdictIsFirst(first, k);
    assert CaseAnswer(Special, events[k], expected[k], first[k]);
    forall i | 0 <= i < k ensures Ran(events[i], "Accepted") {
      assert first[..k][i] == first[i];
      assert CaseAnswer(Special, events[i], expected[i], first[i]);
    }
    assert Ran(events[k], "Compile Error") && AllAcceptedBefore(events, k);
  }

  lemma SpecialJudgeIsAsked(m: Manifest, stopRequested: bool, expected: seq<string>, events: seq<Event>)
    requires Answered(m, stopRequested, events) && |expected| == |m.cases| && m.checker == Some(Special)
    requires !CompileOnly(events) && !CompileErrorComesFirst(events)
    ensures NeedsSpecialJudge(m, FirstCases(m, stopRequested, expected, events))
  {
    var first := FirstCases(m, stopRequested, expected, events);
    FirstCasesAnswer(m, stopRequested, expected, events);
    if Verdict(first) == CompileError {
      CompileErrorFirstIsReported(expected, events, first);
    }
  }

  /**
   * With a special judge a case that ran accepted is ACCEPTED or WRONG_ANSWER as the judge's verdict on it says, with
   * both times added and the larger memory; every other case has the verdict of the sandbox's status.
   */
  lemma CasesAreRejudged(
    m: Manifest, stopRequested: bool, expected: seq<string>, events: seq<Event>,
    checkerEvents: seq<Event>, verdicts: seq<Option<bool>>, judged: CanonicalResult, r: CanonicalResult)
    requires |expected| == |m.cases| && m.checker == Some(Special)
    requires !CompileOnly(events) && !CompileErrorComesFirst(events)
    requires Outcome(m, stopRequested, expected, events, checkerEvents, verdicts, judged, r)
    ensures |r.cases| == |events| - 1 <= |m.cases|
    ensures forall i :: 0 <= i < |r.cases| ==>
      r.cases[i].caseId == m.cases[i].id && JudgeAnswer(events, checkerEvents, verdicts, i, r.cases[i])
  {
    var first := FirstCases(m, stopRequested, expected, events);
    FirstCasesAnswer(m, stopRequested, expected, events);
    SpecialJudgeIsAsked(m, stopRequested, expected, events);
    ScoringKeepsCases(m, judged, r);
    RejudgedIsWorsened(first, judged.cases, checkerEvents, verdicts);
    forall i | 0 <= i < |r.cases|
      ensures r.cases[i].caseId == m.cases[i].id && JudgeAnswer(events, checkerEvents, verdicts, i, r.cases[i])
    {
      RejudgedAnswers(first, judged.cases, expected, events, checkerEvents, verdicts, i);
      assert SameCase(r.cases[i], judged.cases[i]);
    }
  }

  /** If everything ran accepted, the judge's run number `i` is about case `i`. */
  lemma {:induction false} AllRunsCount(events: seq<Event>, n: nat)
    requires n <= |events| && AllAcceptedBefore(events, n)
    ensures AcceptedRuns(events, n) == n
  {
    if n > 0 {
      AllRunsCount(events, n - 1);
    }
  }

  /** The special judge accepted every case. */
  predicate AllApproved(m: Manifest, verdicts: seq<Option<bool>>)
  {
    |m.cases| <= |verdicts| && forall i :: 0 <= i < |m.cases| ==> verdicts[i] == Some(true)
  }

  /** With a special judge a result is ACCEPTED if and only if every case ran accepted and the judge approved it. */
  lemma AcceptedMeansApproved(
    m: Manifest, stopRequested: bool, expected: seq<string>, events: seq<Event>,
    checkerEvents: seq<Event>, verdicts: seq<Option<bool>>, judged: CanonicalResult, r: CanonicalResult)
    requires |expected| == |m.cases| && m.checker == Some(Special)
    requires Outcome(m, stopRequested, expected, events, checkerEvents, verdicts, judged, r)
    ensures r.status == Accepted <==> AllRan(m, events) && AllApproved(m, verdicts)
    ensures CompileOnly(events) ==> r.status == CompileError && r.cases == []
  {
    AcceptedMeansEveryCase(m, judged, r);
    if CompileOnly(events) {
      FailedCompilation(m, stopRequested, expected, events, checkerEvents, verdicts, judged, r);
    } else if CompileErrorComesFirst(events) {
      CompileErrorIsFinal(m, stopRequested, expected, events, checkerEvents, verdicts, judged, r);
    } else {
      CasesAreRejudged(m, stopRequested, expected, events, checkerEvents, verdicts, judged, r);
      ApprovedCases(m, events, checkerEvents, verdicts, r.cases);
    }
  }

  lemma ApprovedCases(
    m: Manifest, events: seq<Event>, checkerEvents: seq<Event>, verdicts: seq<Option<bool>>, cases: seq<CanonicalCase>)
    requires |cases| == |events| - 1 <= |m.cases|
    requires forall i :: 0 <= i < |cases| ==> JudgeAnswer(events, checkerEvents, verdicts, i, cases[i])
    ensures |cases| == |m.cases| && AllAccepted(cases) <==> AllRan(m, events) && AllApproved(m, verdicts)
  {
    if |cases| == |m.cases| && AllAcceptedBefore(events, |cases|) {
      forall i | 0 <= i < |cases|
        ensures i < |verdicts| && (cases[i].status == Accepted <==> verdicts[i] == Some(true))
      {
        AllRunsCount(events, i);
        assert JudgeAnswer(events, checkerEvents, verdicts, i, cases[i]);
      }
      assert AllRan(m, events);
      if cases != [] {
        var last := cases[|cases| - 1];
        assert |cases| <= |verdicts|;
      }
    } else if |cases| == |m.cases| {
      var i :| 0 <= i < |cases| && !Ran(events[i], "Accepted");
      assert JudgeAnswer(events, checkerEvents, verdicts, i, cases[i]);
      assert cases[i].status != Accepted;
    }
  }

  /**
   * When the first failure that the sandbox reports is a compile error, the judge is not asked: that is the result, and
   * every case keeps the verdict of the sandbox's status.
   */
  lemma CompileErrorIsFinal(
    m: Manifest, stopRequested: bool, expected: seq<string>, events: seq<Event>,
    checkerEvents: seq<Event>, verdicts: seq<Option<bool>>, judged: CanonicalResult, r: CanonicalResult)
    requires |expected| == |m.cases| && m.checker == Some(Special)
    requires !CompileOnly(events) && CompileErrorComesFirst(events)
    requires Outcome(m, stopRequested, expected, events, checkerEvents, verdicts, judged, r)
    ensures r.status == CompileError && !AllRan(m, events) && |r.cases| == |events| - 1 <= |m.cases|
    ensures forall i :: 0 <= i < |r.cases| ==>
      r.cases[i].caseId == m.cases[i].id && CaseAnswer(Special, events[i], expected[i], r.cases[i])
  {
    FirstCasesAnswer(m, stopRequested, expected, events);
    var first := FirstCases(m, stopRequested, expected, events);
    assert CompletionEvent(events[|events| - 1]);
    var k := FirstCompileError(expected, events, first);
    ScoringKeepsCases(m, judged, r);
    forall i | 0 <= i < |r.cases|
      ensures r.cases[i].caseId == m.cases[i].id && CaseAnswer(Special, events[i], expected[i], r.cases[i])
    {
      assert SameCase(r.cases[i], judged.cases[i]);
    }
    assert AllAccepted(r.cases[..k]) by {
      forall i | 0 <= i < k ensures r.cases[..k][i].status == Accepted {
        assert first[..k][i] == first[i] && SameCase(r.cases[i], first[i]);
      }
    }
    FirstFailureDecides(m, judged, r, k);
  }

  lemma FirstCompileError(expected: seq<string>, events: seq<Event>, first: seq<CanonicalCase>) returns (k: nat)
    requires |first| == |events| - 1 && |first| <= |expected| && CompletionEvent(events[|events| - 1])
    requires forall j :: 0 <= j < |first| ==> CaseAnswer(Special, events[j], expected[j], first[j])
    requires CompileErrorComesFirst(events)
    ensures k < |first| && AllAccepted(first[..k]) && first[k].status == CompileError && Verdict(first) == CompileError
    ensures !Ran(events[k], "Accepted")
  {
    k :| 0 <= k < |events| && Ran(events[k], "Compile Error") && AllAcceptedBefore(events, k);
    assert "Compile Error"[0] != "Accepted"[0];
    assert CaseAnswer(Special, events[k], expected[k], first[k]);
    forall i | 0 <= i < k ensures first[..k][i].status == Accepted {
      assert CaseAnswer(Special, events[i], expected[i], first[i]);
    }
    VerdictIsFirst(first, k);
  }
}
