/**
 * The canonical judging pipeline: a sandbox event stream is validated, aggregated, merged with the special judge and
 * scored. Requests to the sandbox, JSON and byte limits are left out; what the sandbox answers is an argument.
 */
module Judging {
  import opened Options
  import opened Text
  import opened Checkers
  import opened Manifests

  const MAX_BATCH_CASES: nat := 256
  const MAX_TIME: nat := 86_400_000
  const MAX_MEMORY_KB: nat := 2_147_483_647
  const MAX_STDERR: nat := 65_536

  datatype Status =
    | Accepted | CompileError | WrongAnswer | TimeLimitExceeded
    | MemoryLimitExceeded | RuntimeError | OutputLimitExceeded | SystemError

  /** The name of a verdict in results and callbacks. */
  function Label(s: Status): string
  {
    match s
    case Accepted => "ACCEPTED"
    case CompileError => "COMPILE_ERROR"
    case WrongAnswer => "WRONG_ANSWER"
    case TimeLimitExceeded => "TIME_LIMIT_EXCEEDED"
    case MemoryLimitExceeded => "MEMORY_LIMIT_EXCEEDED"
    case RuntimeError => "RUNTIME_ERROR"
    case OutputLimitExceeded => "OUTPUT_LIMIT_EXCEEDED"
    case SystemError => "SYSTEM_ERROR"
  }

  function MapStatus(text: string): Status
  {
    if text == "Accepted" then Accepted
    else if text == "Compile Error" then CompileError
    else if text == "Wrong Answer" then WrongAnswer
    else if text == "Time Limit Exceeded" then TimeLimitExceeded
    else if text == "Memory Limit Exceeded" then MemoryLimitExceeded
    else if text == "Runtime Error" then RuntimeError
    else if text == "Output Limit Exceeded" then OutputLimitExceeded
    else SystemError
  }

  /** The statuses a contestant's program can have. */
  predicate KnownStatus(text: string)
  {
    text in {"Accepted", "Compile Error", "Wrong Answer", "Time Limit Exceeded", "Memory Limit Exceeded",
             "Runtime Error", "Output Limit Exceeded"}
  }

  lemma KnownIsMapped(text: string)
    ensures KnownStatus(text) <==> MapStatus(text) != SystemError
    ensures MapStatus(text) == Accepted <==> text == "Accepted"
    ensures MapStatus(text) == CompileError <==> text == "Compile Error"
  {
  }

  // --------------------------------------------------------------- event streams

  datatype SandboxResult = SandboxResult(status: string, stdout: string, timeUsed: int, memoryUsed: int, exitCode: int)

  datatype EventKind = CaseResult | Completed | CompileFailed | OtherKind

  datatype Event = NilEvent | Event(kind: EventKind, caseId: string, result: Option<SandboxResult>)

  datatype Request = Request(caseIds: seq<string>, stopOnFailure: bool)

  predicate CaseEvent(e: Event, id: string)
  {
    e.Event? && e.kind == CaseResult && e.result.Some? && e.caseId == id && KnownStatus(e.result.value.status)
  }

  predicate CompletionEvent(e: Event)
  {
    e.Event? && e.kind == Completed && e.caseId == "" && e.result == None
  }

  /** A failed compilation is reported alone. */
  predicate CompileOnly(events: seq<Event>)
  {
    && |events| == 1 && events[0].Event? && events[0].kind == CompileFailed
    && events[0].caseId == "" && events[0].result.Some? && events[0].result.value.status == "Compile Error"
  }

  /** One event per case, in order; after a failure nothing more if the request says so, else all cases. */
  predicate CaseStream(r: Request, events: seq<Event>)
  {
    var n := |events| - 1;
    && 1 <= n <= |r.caseIds|
    && (forall i :: 0 <= i < n ==> CaseEvent(events[i], r.caseIds[i]))
    && CompletionEvent(events[n])
    && (r.stopOnFailure ==> forall i :: 0 <= i < n - 1 ==> events[i].result.value.status == "Accepted")
    && (n == |r.caseIds| || (r.stopOnFailure && events[n - 1].result.value.status != "Accepted"))
  }

  predicate ValidEvents(r: Request, events: seq<Event>)
  {
    CompileOnly(events) || CaseStream(r, events)
  }

  /** `validateBatchEvents` accepts exactly these streams. */
  method ValidateBatchEvents(r: Request, events: seq<Event>) returns (ok: bool)
    ensures ok <==> ValidEvents(r, events)
  {
    if |events| == 0 {
      return false;
    }
    if |events| == 1 && events[0].Event? && events[0].kind == CompileFailed {
      return events[0].caseId == "" && events[0].result.Some? && events[0].result.value.status == "Compile Error";
    }
    var caseIndex := 0;
    while caseIndex < |events|
      invariant caseIndex <= |events| && caseIndex <= |r.caseIds|
      invariant forall i :: 0 <= i < caseIndex ==> CaseEvent(events[i], r.caseIds[i])
      invariant r.stopOnFailure ==> forall i :: 0 <= i < caseIndex - 1 ==> events[i].result.value.status == "Accepted"
    {
      var e := events[caseIndex];
      if e.NilEvent? {
        return false;
      }
      match e.kind
      case CaseResult =>
        if r.stopOnFailure && caseIndex > 0 && events[caseIndex - 1].result.value.status != "Accepted" {
          StoppedTooLate(r, events, caseIndex);
          return false;
        }
        if || caseIndex >= |r.caseIds| || e.result == None || e.caseId != r.caseIds[caseIndex]
           || !KnownStatus(e.result.value.status)
        {
          return false;
        }
        caseIndex := caseIndex + 1;
      case Completed =>
        if caseIndex != |events| - 1 || e.caseId != "" || e.result.Some? || caseIndex == 0 {
          return false;
        }
        var last := events[caseIndex - 1].result.value.status;
        if caseIndex != |r.caseIds| && (!r.stopOnFailure || last == "Accepted") {
          return false;
        }
        return true;
      case _ => return false;
    }
    return false;
  }

  lemma StoppedTooLate(r: Request, events: seq<Event>, k: nat)
    requires 0 < k < |events| && events[k].Event? && events[k].kind == CaseResult
    requires r.stopOnFailure && events[k - 1].Event? && events[k - 1].result.Some?
    requires events[k - 1].result.value.status != "Accepted"
    ensures !CaseStream(r, events)
  {
  }

  // ----------------------------------------------------------------- aggregation

  datatype CanonicalCase = CanonicalCase(
    caseId: string, status: Status, timeMillis: int, memoryKb: int, score: Option<int>, maxScore: Option<int>)

  datatype CanonicalResult = CanonicalResult(
    status: Status,
    exitCode: int,
    timeMillis: int,
    memoryKb: int,
    stderr: string,
    compileError: string,
    score: Option<int>,
    totalScore: Option<int>,
    cases: seq<CanonicalCase>)

  function Bounded(value: int, maximum: nat): (r: nat)
    ensures r <= maximum
  {
    if value <= 0 then 0 else if value > maximum then maximum else value
  }

  function Larger(a: int, b: int): int
  {
    if a < b then b else a
  }

  /** The first verdict that is not ACCEPTED. */
  function Verdict(cases: seq<CanonicalCase>): Status
  {
    if cases == [] then Accepted
    else if Verdict(cases[..|cases| - 1]) != Accepted then Verdict(cases[..|cases| - 1])
    else cases[|cases| - 1].status
  }

  function MaxTime(cases: seq<CanonicalCase>): int
  {
    if cases == [] then 0 else Larger(MaxTime(cases[..|cases| - 1]), cases[|cases| - 1].timeMillis)
  }

  function MaxMemory(cases: seq<CanonicalCase>): int
  {
    if cases == [] then 0 else Larger(MaxMemory(cases[..|cases| - 1]), cases[|cases| - 1].memoryKb)
  }

  /**
   * The verdict of one case: the sandbox's, unless its output does not match after all. The pipeline compares token
   * digests; with a collision-free hash that is this comparison, by `Checkers.CheckDecidesOutputs`.
   */
  function CaseVerdict(checker: Checker, result: SandboxResult, expected: string): Status
  {
    if result.status == "Accepted" && checker != Special && !OutputsMatch(checker, result.stdout, expected)
    then WrongAnswer
    else MapStatus(result.status)
  }

  function JudgedCase(checker: Checker, e: Event, expected: string): CanonicalCase
    requires e.Event? && e.result.Some?
  {
    CanonicalCase(e.caseId, CaseVerdict(checker, e.result.value, expected), Bounded(e.result.value.timeUsed, MAX_TIME),
                  Bounded(e.result.value.memoryUsed, MAX_MEMORY_KB), None, None)
  }

  const REDACTED := "compilation failed; diagnostics redacted"

  predicate SomeCompileError(cases: seq<CanonicalCase>)
  {
    exists i :: 0 <= i < |cases| && cases[i].status == CompileError
  }

  /** What every stage before scoring keeps true of a result. */
  predicate Judged(m: Manifest, r: CanonicalResult)
  {
    && |r.cases| <= |m.cases|
    && (forall i :: 0 <= i < |r.cases| ==> CaseJudged(m.cases[i], r.cases[i]))
    && r.status == (if r.cases == [] then CompileError else Verdict(r.cases))
    && r.timeMillis == MaxTime(r.cases) && r.memoryKb == MaxMemory(r.cases)
    && (r.status == Accepted ==> r.exitCode == 0)
    && r.compileError == (if r.cases == [] || SomeCompileError(r.cases) then REDACTED else "")
    && Utf16Length(r.stderr) <= MAX_STDERR
    && r.score == None && r.totalScore == None
    && (r.cases == [] || |r.cases| == |m.cases| || r.cases[|r.cases| - 1].status != Accepted)
  }

  predicate CaseJudged(c: Case, item: CanonicalCase)
  {
    && item.caseId == c.id && item.status != SystemError
    && 0 <= item.timeMillis <= 2 * MAX_TIME && 0 <= item.memoryKb <= MAX_MEMORY_KB
    && item.score == None && item.maxScore == None
  }

  /** The request's case identifiers are the manifest's. */
  predicate RequestFor(m: Manifest, r: Request)
  {
    |r.caseIds| == |m.cases| && forall i :: 0 <= i < |m.cases| ==> r.caseIds[i] == m.cases[i].id
  }

  /** The exit code of the first of the first `n` events that is not judged ACCEPTED. */
  function FirstExitCode(checker: Checker, events: seq<Event>, expected: seq<string>, n: nat): int
    requires n <= |events| && n <= |expected| && forall i :: 0 <= i < n ==> events[i].Event? && events[i].result.Some?
  {
    if n == 0 then 0
    else if forall i :: 0 <= i < n - 1 ==> CaseVerdict(checker, events[i].result.value, expected[i]) == Accepted then
      if CaseVerdict(checker, events[n - 1].result.value, expected[n - 1]) == Accepted
      then 0
      else events[n - 1].result.value.exitCode
    else FirstExitCode(checker, events, expected, n - 1)
  }

  /** `aggregateBatchResult`: one case result per event, the first failure decides, metrics are maxima. */
  method Aggregate(
    m: Manifest, checker: Checker, r: Request, expected: seq<string>, events: seq<Event>)
    returns (result: CanonicalResult)
    requires RequestFor(m, r) && ValidEvents(r, events) && |expected| == |m.cases|
    ensures Judged(m, result)
    ensures CompileOnly(events) ==> result.cases == [] && result.exitCode == 0
    ensures !CompileOnly(events) ==>
      && |result.cases| == |events| - 1 && JudgedSoFar(checker, events, expected, result.cases)
      && result.exitCode == FirstExitCode(checker, events, expected, |events| - 1)
  {
    if events[0].kind == CompileFailed {
      StderrFits("compilation failed");
      return CanonicalResult(CompileError, 0, 0, 0, "compilation failed", REDACTED, None, None, []);
    }
    result := AggregateCases(checker, r, expected, events);
    AggregateIsJudged(m, checker, r, expected, events, result);
    TalliedIsJudged(m, result);
  }

  method AggregateCases(
    checker: Checker, r: Request, expected: seq<string>, events: seq<Event>)
    returns (result: CanonicalResult)
    requires CaseStream(r, events) && |expected| == |r.caseIds|
    ensures Tallied(result) && |result.cases| == |events| - 1 && JudgedSoFar(checker, events, expected, result.cases)
    ensures result.exitCode == FirstExitCode(checker, events, expected, |events| - 1)
  {
    result := CanonicalResult(Accepted, 0, 0, 0, "", "", None, None, []);
    var n := |events| - 1;
    var i := 0;
    var summary := "";
    while i < n
      invariant i <= n && |result.cases| == i && Tallied(result) && JudgedSoFar(checker, events, expected, result.cases)
      invariant result.exitCode == FirstExitCode(checker, events, expected, i)
    {
      assert CaseEvent(events[i], r.caseIds[i]);
      var e := events[i];
      var item := JudgedCase(checker, e, expected[i]);
      ghost var done := result.cases;
      OneMoreExitCode(checker, events, expected, done);
      JudgedOneMore(checker, events, expected, done);
      summary := Summary(summary, e.caseId, e.result.value.status, item.status);
      var stderr := TruncateUtf16(summary, MAX_STDERR);
      result := Absorb(result, item, e.result.value.exitCode, stderr);
      i := i + 1;
    }
  }

  /** The first cases are the judged first events. */
  predicate JudgedSoFar(checker: Checker, events: seq<Event>, expected: seq<string>, cases: seq<CanonicalCase>)
  {
    && |cases| <= |events| && |cases| <= |expected|
    && forall i :: 0 <= i < |cases| ==>
         events[i].Event? && events[i].result.Some? && cases[i] == JudgedCase(checker, events[i], expected[i])
  }

  lemma JudgedOneMore(checker: Checker, events: seq<Event>, expected: seq<string>, cases: seq<CanonicalCase>)
    requires JudgedSoFar(checker, events, expected, cases) && |cases| < |events| && |cases| < |expected|
    requires events[|cases|].Event? && events[|cases|].result.Some?
    ensures JudgedSoFar(checker, events, expected, cases + [JudgedCase(checker, events[|cases|], expected[|cases|])])
  {
  }

  lemma OneMoreExitCode(checker: Checker, events: seq<Event>, expected: seq<string>, cases: seq<CanonicalCase>)
    requires JudgedSoFar(checker, events, expected, cases) && |cases| < |events| && |cases| < |expected|
    requires events[|cases|].Event? && events[|cases|].result.Some?
    ensures FirstExitCode(checker, events, expected, |cases| + 1) ==
      if Verdict(cases) == Accepted && CaseVerdict(checker, events[|cases|].result.value, expected[|cases|]) != Accepted
      then events[|cases|].result.value.exitCode
      else FirstExitCode(checker, events, expected, |cases|)
  {
    VerdictIsSome(cases);
    forall i | 0 <= i < |cases|
      ensures CaseVerdict(checker, events[i].result.value, expected[i]) == cases[i].status
    {
    }
  }

  function Summary(before: string, caseId: string, sandboxStatus: string, status: Status): string
  {
    before + (if before == "" then "" else ";")
      + "case=" + caseId + " sandboxStatus=" + sandboxStatus + " status=" + Label(status)
  }

  /** Status, metrics and messages of a result are those of its cases. */
  predicate Tallied(r: CanonicalResult)
  {
    && r.status == Verdict(r.cases) && r.timeMillis == MaxTime(r.cases) && r.memoryKb == MaxMemory(r.cases)
    && (r.status == Accepted ==> r.exitCode == 0)
    && r.compileError == (if SomeCompileError(r.cases) then REDACTED else "")
    && Utf16Length(r.stderr) <= MAX_STDERR && r.score == None && r.totalScore == None
  }

  /** One turn of the aggregation loop. */
  method Absorb(
    before: CanonicalResult, item: CanonicalCase, exitCode: int, stderr: string)
    returns (r: CanonicalResult)
    requires Tallied(before) && Utf16Length(stderr) <= MAX_STDERR
    ensures Tallied(r) && r.cases == before.cases + [item]
    ensures r.exitCode == if before.status == Accepted && item.status != Accepted then exitCode else before.exitCode
  {
    r := before.(
      timeMillis := Larger(before.timeMillis, item.timeMillis), memoryKb := Larger(before.memoryKb, item.memoryKb));
    if r.status == Accepted && item.status != Accepted {
      r := r.(status := item.status, exitCode := exitCode);
    }
    r := r.(cases := before.cases + [item], stderr := stderr);
    if item.status == CompileError {
      r := r.(compileError := REDACTED);
    }
    assert r.cases[..|before.cases|] == before.cases;
    assert r.cases[|before.cases|] == item;
    assert forall i :: 0 <= i < |before.cases| ==> r.cases[i] == before.cases[i];
  }

  lemma TalliedIsJudged(m: Manifest, r: CanonicalResult)
    requires Tallied(r) && 0 < |r.cases| <= |m.cases|
    requires forall i :: 0 <= i < |r.cases| ==> CaseJudged(m.cases[i], r.cases[i])
    requires |r.cases| == |m.cases| || r.cases[|r.cases| - 1].status != Accepted
    ensures Judged(m, r)
  {
  }

  /** The verdict is ACCEPTED exactly when every case is, else it is the verdict of some case. */
  lemma {:induction false} VerdictIsSome(cases: seq<CanonicalCase>)
    ensures Verdict(cases) == Accepted <==> forall i :: 0 <= i < |cases| ==> cases[i].status == Accepted
    ensures Verdict(cases) != Accepted ==> exists i :: 0 <= i < |cases| && cases[i].status == Verdict(cases)
  {
    if cases != [] {
      var n := |cases| - 1;
      VerdictIsSome(cases[..n]);
      assert forall i :: 0 <= i < n ==> cases[..n][i] == cases[i];
    }
  }

  lemma StderrFits(s: string)
    requires |s| <= 30_000
    ensures Utf16Length(s) <= 2 * |s|
  {
  }

  lemma AggregateIsJudged(
    m: Manifest, checker: Checker, r: Request, expected: seq<string>, events: seq<Event>, result: CanonicalResult)
    requires RequestFor(m, r) && CaseStream(r, events) && |expected| == |m.cases|
    requires |result.cases| == |events| - 1
    requires forall k :: 0 <= k < |result.cases| ==> result.cases[k] == JudgedCase(checker, events[k], expected[k])
    ensures forall i :: 0 <= i < |result.cases| ==> CaseJudged(m.cases[i], result.cases[i])
    ensures |result.cases| == |m.cases| || result.cases[|result.cases| - 1].status != Accepted
  {
  }

  // --------------------------------------------------------------- special judge

  /** `recomputeCanonicalVerdict`: status and metrics of the result are those of its cases. */
  method Recompute(m: Manifest, before: CanonicalResult) returns (result: CanonicalResult)
    requires |before.cases| == |m.cases| > 0 && before.score == None && before.totalScore == None
    requires forall i :: 0 <= i < |before.cases| ==> CaseJudged(m.cases[i], before.cases[i])
    requires before.compileError == if SomeCompileError(before.cases) then REDACTED else ""
    ensures Judged(m, result) && result.cases == before.cases && result.exitCode == 0
  {
    result := before.(status := Accepted, exitCode := 0, timeMillis := 0, memoryKb := 0);
    var summary := "";
    var i := 0;
    while i < |before.cases|
      invariant i <= |before.cases|
      invariant result == before.(
        status := Verdict(before.cases[..i]), exitCode := 0, timeMillis := MaxTime(before.cases[..i]),
        memoryKb := MaxMemory(before.cases[..i]))
    {
      var item := before.cases[i];
      assert before.cases[..i + 1][..i] == before.cases[..i];
      if result.status == Accepted && item.status != Accepted {
        result := result.(status := item.status);
      }
      result := result.(
        timeMillis := Larger(result.timeMillis, item.timeMillis), memoryKb := Larger(result.memoryKb, item.memoryKb));
      summary := summary + (if i == 0 then "" else ";") + "case=" + item.caseId + " status=" + Label(item.status);
      i := i + 1;
    }
    assert before.cases[..i] == before.cases;
    var stderr := TruncateUtf16(summary, MAX_STDERR);
    result := result.(stderr := stderr);
    VerdictIsSome(result.cases);
  }

  /** The cases the special judge has to look at. */
  function AcceptedIndexes(cases: seq<CanonicalCase>, k: nat): (r: seq<nat>)
    requires k <= |cases|
    ensures |r| <= k && forall j :: 0 <= j < |r| ==> r[j] < k && cases[r[j]].status == Accepted
    ensures forall i, j :: 0 <= i < j < |r| ==> r[i] < r[j]
    ensures forall i :: 0 <= i < k && cases[i].status == Accepted ==> i in r
  {
    if k == 0 then []
    else
      var before := AcceptedIndexes(cases, k - 1);
      if cases[k - 1].status == Accepted then before + [k - 1] else before
  }

  /** What the special judge's run makes of one accepted case. */
  function Rejudged(item: CanonicalCase, run: SandboxResult, accepted: bool): CanonicalCase
  {
    item.(timeMillis := item.timeMillis + Bounded(run.timeUsed, MAX_TIME), memoryKb := Larger(
      item.memoryKb, Bounded(run.memoryUsed, MAX_MEMORY_KB)),
          status := if accepted then Accepted else WrongAnswer)
  }

  /**
   * `applySpecialJudge`: the accepted cases, and no others, get the special judge's verdict. `verdicts` is what its
   * outputs parse to. Anything but a clean run for every accepted case is a failure of the infrastructure or the
   * checker.
   */
  method ApplySpecialJudge(
    m: Manifest, before: CanonicalResult, events: seq<Event>, verdicts: seq<Option<bool>>)
    returns (result: Option<CanonicalResult>)
    requires Judged(m, before) && before.status != CompileError && before.timeMillis <= MAX_TIME
    requires forall i :: 0 <= i < |before.cases| ==> before.cases[i].timeMillis <= MAX_TIME
    requires |verdicts| + 1 >= |events|
    ensures result.Some? <==> |before.cases| == |m.cases| > 0 && Rejudgeable(before.cases, events, verdicts)
    ensures result.Some? ==>
      && Judged(m, result.value) && result.value.exitCode == 0
      && RejudgedCases(before.cases, result.value.cases, events, verdicts)
  {
    if |before.cases| != |m.cases| || |m.cases| == 0 {
      return None;
    }
    var indexes := AcceptedIndexes(before.cases, |before.cases|);
    if indexes == [] {
      var same := Recompute(m, before);
      return Some(same);
    }
    var cases := RunSpecialJudge(before.cases, indexes, events, verdicts);
    if cases == None {
      return None;
    }
    RejudgedIsJudged(m, before, cases.value, indexes, events, verdicts);
    var final := Recompute(m, before.(cases := cases.value));
    result := Some(final);
  }

  /** The merged cases: accepted ones rejudged, the others as they were. */
  predicate Merged(
    before: seq<CanonicalCase>, after: seq<CanonicalCase>, indexes: seq<nat>, events: seq<Event>,
    verdicts: seq<Option<bool>>)
    requires forall k :: 0 <= k < |indexes| ==> indexes[k] < |before|
  {
    && |after| == |before| && |events| == |indexes| + 1 && |indexes| <= |verdicts|
    && (forall i :: 0 <= i < |after| && i !in indexes ==> after[i] == before[i])
    && (forall k :: 0 <= k < |indexes| ==>
          && events[k].Event? && events[k].result.Some? && verdicts[k].Some?
          && after[indexes[k]] == Rejudged(before[indexes[k]], events[k].result.value, verdicts[k].value))
  }

  function CheckerRequest(before: seq<CanonicalCase>, indexes: seq<nat>): Request
    requires forall k :: 0 <= k < |indexes| ==> indexes[k] < |before|
  {
    Request(seq(|indexes|, j requires 0 <= j < |indexes| => before[indexes[j]].caseId), false)
  }

  predicate CleanCase(e: Event, verdict: Option<bool>)
  {
    e.Event? && e.result.Some? && e.result.value.status == "Accepted" && verdict.Some?
  }

  /** The special judge ran cleanly for each of the cases it was given, and each of its outputs parsed. */
  predicate CleanRun(before: seq<CanonicalCase>, indexes: seq<nat>, events: seq<Event>, verdicts: seq<Option<bool>>)
    requires forall k :: 0 <= k < |indexes| ==> indexes[k] < |before|
  {
    && |events| == |indexes| + 1 && |indexes| <= |verdicts| && CaseStream(CheckerRequest(before, indexes), events)
    && (forall k :: 0 <= k < |indexes| ==> CleanCase(events[k], verdicts[k]))
  }

  /** Nothing was accepted, or the special judge ran cleanly. */
  predicate Rejudgeable(before: seq<CanonicalCase>, events: seq<Event>, verdicts: seq<Option<bool>>)
  {
    var indexes := AcceptedIndexes(before, |before|);
    indexes == [] || CleanRun(before, indexes, events, verdicts)
  }

  predicate RejudgedCases(
    before: seq<CanonicalCase>, after: seq<CanonicalCase>, events: seq<Event>, verdicts: seq<Option<bool>>)
  {
    var indexes := AcceptedIndexes(before, |before|);
    if indexes == [] then after == before else Merged(before, after, indexes, events, verdicts)
  }

  method RunSpecialJudge(
    before: seq<CanonicalCase>, indexes: seq<nat>, events: seq<Event>, verdicts: seq<Option<bool>>)
    returns (result: Option<seq<CanonicalCase>>)
    requires indexes != [] && |verdicts| + 1 >= |events|
    requires forall k :: 0 <= k < |indexes| ==> indexes[k] < |before|
    requires forall i, j :: 0 <= i < j < |indexes| ==> indexes[i] < indexes[j]
    ensures result.Some? <==> CleanRun(before, indexes, events, verdicts)
    ensures result.Some? ==> Merged(before, result.value, indexes, events, verdicts)
  {
    var request := CheckerRequest(before, indexes);
    var ok := ValidateBatchEvents(request, events);
    if !ok || |events| != |indexes| + 1 || CompileOnly(events) {
      return None;
    }
    var cases := before;
    var j := 0;
    while j < |indexes|
      invariant j <= |indexes| && |cases| == |before|
      invariant forall i :: 0 <= i < |cases| && i !in indexes[..j] ==> cases[i] == before[i]
      invariant forall k :: 0 <= k < j ==> CleanCase(events[k], verdicts[k]) && cases[indexes[k]] == Rejudged(
        before[indexes[k]], events[k].result.value, verdicts[k].value)
    {
      assert CaseEvent(events[j], request.caseIds[j]);
      var run := events[j].result.value;
      if run.status != "Accepted" || verdicts[j] == None {
        assert !CleanCase(events[j], verdicts[j]);
        return None;
      }
      assert indexes[j] !in indexes[..j];
      cases := cases[indexes[j] := Rejudged(cases[indexes[j]], run, verdicts[j].value)];
      assert indexes[..j + 1] == indexes[..j] + [indexes[j]];
      j := j + 1;
    }
    assert indexes[..j] == indexes;
    result := Some(cases);
  }

  lemma RejudgedIsJudged(
    m: Manifest, before: CanonicalResult, cases: seq<CanonicalCase>, indexes: seq<nat>, events: seq<Event>,
    verdicts: seq<Option<bool>>)
    requires Judged(m, before) && |before.cases| == |m.cases|
    requires indexes == AcceptedIndexes(before.cases, |before.cases|)
    requires forall i :: 0 <= i < |before.cases| ==> before.cases[i].timeMillis <= MAX_TIME
    requires Merged(before.cases, cases, indexes, events, verdicts)
    ensures forall i :: 0 <= i < |cases| ==> CaseJudged(m.cases[i], cases[i])
    ensures SomeCompileError(cases) <==> SomeCompileError(before.cases)
  {
  }

  // --------------------------------------------------------------------- scoring

  /** The weights of the accepted cases. */
  function AcceptedWeight(m: Manifest, cases: seq<CanonicalCase>): int
    requires |cases| <= |m.cases|
  {
    if cases == [] then 0
    else
      var n := |cases| - 1;
      AcceptedWeight(m, cases[..n]) + if cases[n].status == Accepted then m.cases[n].weight else 0
  }

  function ScoredCase(c: Case, item: CanonicalCase): CanonicalCase
  {
    item.(score := Some(if item.status == Accepted then c.weight else 0), maxScore := Some(c.weight))
  }

  /** What the scored result is, in terms of the judged one. */
  predicate Scored(m: Manifest, before: CanonicalResult, r: CanonicalResult)
    requires |before.cases| <= |m.cases|
  {
    if m.judgeMode != Oi || m.totalScore == None then r == before
    else
      var score, total := AcceptedWeight(m, before.cases), m.totalScore.value;
      && |r.cases| == |before.cases|
      && (forall i :: 0 <= i < |r.cases| ==> r.cases[i] == ScoredCase(m.cases[i], before.cases[i]))
      && r.score == Some(score) && r.totalScore == Some(total)
      && r.status ==
           (if before.status == CompileError then CompileError else if score == total then Accepted else WrongAnswer)
      && r.exitCode == (if before.status != CompileError && score == total then 0 else before.exitCode)
      && r.timeMillis == before.timeMillis && r.memoryKb == before.memoryKb && r.stderr == before.stderr
      && r.compileError == before.compileError
  }

  /** `applyManifestScoring`. */
  method ApplyScoring(m: Manifest, before: CanonicalResult) returns (r: CanonicalResult)
    requires |before.cases| <= |m.cases|
    ensures Scored(m, before, r)
  {
    if m.judgeMode != Oi || m.totalScore == None {
      return before;
    }
    r := before;
    var score, total := 0, m.totalScore.value;
    var index := 0;
    while index < |r.cases|
      invariant index <= |r.cases| == |before.cases| && score == AcceptedWeight(m, before.cases[..index])
      invariant r == before.(cases := r.cases)
      invariant forall i :: 0 <= i < index ==> r.cases[i] == ScoredCase(m.cases[i], before.cases[i])
      invariant forall i :: index <= i < |before.cases| ==> r.cases[i] == before.cases[i]
    {
      assert before.cases[..index + 1][..index] == before.cases[..index];
      var caseScore, caseMaximum := 0, m.cases[index].weight;
      if r.cases[index].status == Accepted {
        caseScore := caseMaximum;
        score := score + caseScore;
      }
      r := r.(cases := r.cases[index := r.cases[index].(score := Some(caseScore), maxScore := Some(caseMaximum))]);
      index := index + 1;
    }
    assert before.cases[..index] == before.cases;
    r := r.(score := Some(score), totalScore := Some(total));
    if r.status != CompileError {
      if score == total {
        r := r.(status := Accepted, exitCode := 0);
      } else {
        r := r.(status := WrongAnswer);
      }
    }
  }
}
