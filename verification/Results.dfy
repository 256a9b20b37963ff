/** Durable job results and the persistence check every stored result has passed. */
module Results {
  import opened Options
  import opened Text

  const MAX_RESULT_CASES := 256
  const MAX_SCORE := 1_000_000_000

  datatype DurableCaseResult = DurableCaseResult(
    caseId: string,
    verdict: string,
    timeMillis: int,
    memoryBytes: int,
    score: Option<int>,
    maxScore: Option<int>)

  datatype DurableJobResult = DurableJobResult(
    verdict: string,
    compileStatus: string,
    timeMillis: int,
    memoryBytes: int,
    score: Option<int>,
    totalScore: Option<int>,
    cases: seq<DurableCaseResult>)

  predicate ValidScorePair(score: Option<int>, maximum: Option<int>)
  {
    match (score, maximum)
    case (None, None) => true
    case (Some(s), Some(m)) => 0 < m <= MAX_SCORE && 0 <= s <= m
    case (_, _) => false
  }

  predicate ValidLabel(s: string, limit: nat)
  {
    !Blank(s) && ByteLength(s) <= limit
  }

  /** The labels the program itself writes all fit. */
  lemma AsciiLabel(s: string, limit: nat)
    requires 0 < |s| <= limit && Ascii(s) && !IsSpace(s[0])
    ensures ValidLabel(s, limit)
  {
    AsciiLength(s);
  }

  predicate ValidCaseFields(item: DurableCaseResult)
  {
    && ValidLabel(item.caseId, 128)
    && ValidLabel(item.verdict, 64)
    && item.timeMillis >= 0
    && item.memoryBytes >= 0
    && ValidScorePair(item.score, item.maxScore)
  }

  /** A case carries a score exactly when the result does: all of its weight if accepted, else nothing. */
  predicate CaseScoreAgrees(scored: bool, item: DurableCaseResult)
    requires ValidScorePair(item.score, item.maxScore)
  {
    if !scored then item.score == None
    else item.score.Some? && item.score.value == if item.verdict == "ACCEPTED" then item.maxScore.value else 0
  }

  predicate ValidCase(scored: bool, item: DurableCaseResult)
  {
    ValidCaseFields(item) && CaseScoreAgrees(scored, item)
  }

  predicate DistinctCaseIds(cases: seq<DurableCaseResult>)
  {
    forall i, j :: 0 <= i < j < |cases| ==> cases[i].caseId != cases[j].caseId
  }

  function Points(value: Option<int>): int
  {
    match value case None => 0 case Some(v) => v
  }

  function ScoreSum(cases: seq<DurableCaseResult>): int
  {
    if cases == [] then 0 else ScoreSum(cases[..|cases| - 1]) + Points(cases[|cases| - 1].score)
  }

  function MaximumSum(cases: seq<DurableCaseResult>): int
  {
    if cases == [] then 0 else MaximumSum(cases[..|cases| - 1]) + Points(cases[|cases| - 1].maxScore)
  }

  predicate ValidHeader(result: DurableJobResult)
  {
    && ValidLabel(result.verdict, 64)
    && ValidLabel(result.compileStatus, 64)
    && result.timeMillis >= 0
    && result.memoryBytes >= 0
    && |result.cases| <= MAX_RESULT_CASES
    && ValidScorePair(result.score, result.totalScore)
  }

  /** What a scored result has to add up to. */
  predicate ScoresBalance(result: DurableJobResult)
    requires ValidScorePair(result.score, result.totalScore)
    requires result.score.Some?
  {
    var score, total := result.score.value, result.totalScore.value;
    if result.compileStatus == "FAILED" then
      result.verdict == "COMPILE_ERROR" && score == 0 && result.cases == []
    else
      && result.compileStatus == "SUCCEEDED"
      && ScoreSum(result.cases) == score
      && MaximumSum(result.cases) == total
      && result.verdict == if score == total then "ACCEPTED" else "WRONG_ANSWER"
  }

  predicate ValidCases(scored: bool, cases: seq<DurableCaseResult>)
  {
    && (forall i :: 0 <= i < |cases| ==> ValidCase(scored, cases[i]))
    && DistinctCaseIds(cases)
  }

  /** The persistence invariant of a durable result. */
  predicate ValidResult(result: DurableJobResult)
  {
    && ValidHeader(result)
    && ValidCases(result.score.Some?, result.cases)
    && (result.score.Some? ==> ScoresBalance(result))
  }

  lemma ValidCasesExtend(scored: bool, cases: seq<DurableCaseResult>, k: nat, seen: set<string>)
    requires k < |cases|
    requires seen == set i | 0 <= i < k :: cases[i].caseId
    requires ValidCases(scored, cases[..k])
    ensures ValidCases(scored, cases[..k + 1]) <==> ValidCase(scored, cases[k]) && cases[k].caseId !in seen
  {
  }

  lemma SumsExtend(cases: seq<DurableCaseResult>, k: nat)
    requires k < |cases|
    ensures ScoreSum(cases[..k + 1]) == ScoreSum(cases[..k]) + Points(cases[k].score)
    ensures MaximumSum(cases[..k + 1]) == MaximumSum(cases[..k]) + Points(cases[k].maxScore)
  {
    assert cases[..k + 1][..k] == cases[..k];
  }

  lemma ValidCasesPrefix(scored: bool, cases: seq<DurableCaseResult>, k: nat)
    requires k <= |cases| && ValidCases(scored, cases)
    ensures ValidCases(scored, cases[..k])
  {
  }

  lemma InvalidPrefix(scored: bool, cases: seq<DurableCaseResult>, k: nat)
    requires k <= |cases| && !ValidCases(scored, cases[..k])
    ensures !ValidCases(scored, cases)
  {
  }

  /** The checks on one case by itself. */
  method CheckCase(scored: bool, item: DurableCaseResult) returns (ok: bool)
    ensures ok <==> ValidCase(scored, item)
  {
    if !ValidCaseFields(item) {
      return false;
    }
    if !scored {
      return item.score == None;
    }
    if item.score == None {
      return false;
    }
    if item.verdict == "ACCEPTED" {
      return item.score.value == item.maxScore.value;
    }
    ok := item.score.value == 0;
  }

  /** The single pass over the cases: running sums and a set of seen case IDs. */
  method ValidateCases(scored: bool, cases: seq<DurableCaseResult>)
    returns (ok: bool, scoreSum: int, maximumSum: int)
    ensures ok <==> ValidCases(scored, cases)
    ensures ok && scored ==> scoreSum == ScoreSum(cases) && maximumSum == MaximumSum(cases)
  {
    var seen: set<string> := {};
    scoreSum, maximumSum := 0, 0;
    for k := 0 to |cases|
      invariant ValidCases(scored, cases[..k])
      invariant seen == set i | 0 <= i < k :: cases[i].caseId
      invariant scored ==> scoreSum == ScoreSum(cases[..k]) && maximumSum == MaximumSum(cases[..k])
    {
      var item := cases[k];
      ValidCasesExtend(scored, cases, k, seen);
      SumsExtend(cases, k);
      var fits := CheckCase(scored, item);
      if !fits || item.caseId in seen {
        InvalidPrefix(scored, cases, k + 1);
        return false, 0, 0;
      }
      if scored {
        scoreSum := scoreSum + item.score.value;
        maximumSum := maximumSum + item.maxScore.value;
      }
      seen := seen + {item.caseId};
    }
    assert cases[..|cases|] == cases;
    ok := true;
  }

  /** The whole persistence check. */
  method ValidateDurableJobResult(result: DurableJobResult) returns (ok: bool)
    ensures ok <==> ValidResult(result)
  {
    if !ValidHeader(result) {
      return false;
    }
    var valid, scoreSum, maximumSum := ValidateCases(result.score.Some?, result.cases);
    if !valid {
      return false;
    }
    if result.score == None {
      return true;
    }
    var score, total := result.score.value, result.totalScore.value;
    if result.compileStatus == "FAILED" {
      return result.verdict == "COMPILE_ERROR" && score == 0 && |result.cases| == 0;
    }
    if result.compileStatus != "SUCCEEDED" || scoreSum != score || maximumSum != total {
      return false;
    }
    if (score == total && result.verdict != "ACCEPTED") || (score < total && result.verdict != "WRONG_ANSWER") {
      return false;
    }
    return true;
  }

  /** The charge the ledger takes for a list of measured times: their sum, capped by the reservation. */
  function TimeSum(cases: seq<DurableCaseResult>): int
  {
    if cases == [] then 0 else TimeSum(cases[..|cases| - 1]) + cases[|cases| - 1].timeMillis
  }

  function CappedTime(cases: seq<DurableCaseResult>, reservation: nat): (r: nat)
    requires forall i :: 0 <= i < |cases| ==> cases[i].timeMillis >= 0
    ensures r <= reservation
  {
    TimeSumPrefix(cases, 0);
    if TimeSum(cases) < reservation then TimeSum(cases) else reservation
  }

  lemma {:induction false} TimeSumPrefix(cases: seq<DurableCaseResult>, k: nat)
    requires k <= |cases|
    requires forall i :: 0 <= i < |cases| ==> cases[i].timeMillis >= 0
    ensures 0 <= TimeSum(cases[..k]) <= TimeSum(cases)
    decreases |cases|
  {
    if k == |cases| {
      assert cases[..k] == cases;
      if k > 0 {
        TimeSumPrefix(cases[..k - 1], k - 1);
        assert cases[..k - 1][..k - 1] == cases[..k - 1];
      }
    } else {
      var init := cases[..|cases| - 1];
      TimeSumPrefix(init, k);
      assert init[..k] == cases[..k];
    }
  }

  /** The accumulating loop stops at the reservation, so it cannot overflow. */
  method CappedCaseExecutionMillis(cases: seq<DurableCaseResult>, reservation: nat) returns (r: nat)
    requires forall i :: 0 <= i < |cases| ==> cases[i].timeMillis >= 0
    ensures r == CappedTime(cases, reservation)
  {
    TimeSumPrefix(cases, 0);
    if reservation <= 0 {
      return 0;
    }
    var total := 0;
    for k := 0 to |cases|
      invariant total == TimeSum(cases[..k])
      invariant 0 <= total < reservation
    {
      assert cases[..k + 1][..k] == cases[..k];
      TimeSumPrefix(cases, k + 1);
      if cases[k].timeMillis >= reservation - total {
        return reservation;
      }
      total := total + cases[k].timeMillis;
    }
    assert cases[..|cases|] == cases;
    return total;
  }
}
