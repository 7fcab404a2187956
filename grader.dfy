/**
 * The evaluation grader: the rule-based grade of one answer against a test
 * case's expectations (`EvalGrader._rule_based_grade`), the choice between
 * the language-model judge and that fallback (`EvalGrader.grade`), and
 * `grade_batch`.
 *
 * The four criteria are worth 0.4, 0.2, 0.2 and 0.2 of a point. The model
 * counts them in whole tenths, so the score is `tenths / 10` and the pass
 * mark is seven tenths.
 */
module Grader {
  import opened Wrappers
  import Text

  /** What a test case expects of the answer. */
  datatype Expected = Expected(approved: bool, policyRef: string, escalation: bool, minConfidence: real)

  /**
   * A policy reference as the grade reads it: a string, or any other value
   * with Python's truth value for it and its `str()` text (`None` is
   * `Other(false, "None")`).
   */
  datatype PolicyRefValue = RefStr(s: string) | Other(truthy: bool, shown: string)

  /** Python's truth value of the reference. */
  predicate Truthy(r: PolicyRefValue) {
    match r
    case RefStr(s) => s != []
    case Other(t, _) => t
  }

  /** `str()` of the reference. */
  function Shown(r: PolicyRefValue): string {
    match r
    case RefStr(s) => s
    case Other(_, text) => text
  }

  const NoRef: PolicyRefValue := Other(false, "None")

  /** What the answer under test said; `None` where it said nothing. */
  datatype Actual = Actual(approved: Option<bool>, policyRef: PolicyRefValue, confidence: Option<real>, escalation: Option<bool>)

  /** One `details` entry: `True`, `"partial"`, `False` or `None`. */
  datatype Mark = Correct | Partial | Wrong | NotScored

  datatype Details = Details(
    approvalCorrect: bool,
    policyCorrect: Mark,
    confidenceAppropriate: Mark,
    escalationCorrect: bool)

  /** `GradeResult`; the explanation text is not modelled. */
  datatype GradeResult = GradeResult(testId: string, passed: bool, score: real, details: Details)

  const NotApplicable: string := "N/A"

  /** Tenths of a point a grade needs in order to pass (0.7). */
  const PassMark: nat := 7

  // ---------------------------------------------------------------------------
  // The four criteria
  // ---------------------------------------------------------------------------

  /**
   * The policy criterion: scored only when the answer's reference is true
   * in Python and the case expects one; only a string can equal the
   * expected reference, and any value whose `str()` contains it is partial.
   */
  function PolicyMark(e: Expected, a: Actual): (m: Mark)
    ensures m == NotScored <==> !Truthy(a.policyRef) || e.policyRef == NotApplicable
    ensures m == Correct <==> m != NotScored && a.policyRef == RefStr(e.policyRef)
    ensures m == Partial <==> m != NotScored && a.policyRef != RefStr(e.policyRef) && Text.Contains(Shown(a.policyRef), e.policyRef)
    ensures m == Wrong ==> !Text.Contains(Shown(a.policyRef), e.policyRef)
  {
    if Truthy(a.policyRef) && e.policyRef != NotApplicable then
      if a.policyRef == RefStr(e.policyRef) then Correct
      else if Text.Contains(Shown(a.policyRef), e.policyRef) then Partial
      else Wrong
    else NotScored
  }

  /**
   * `min_confidence - 0.2` in binary floating point, for the minimums the
   * case table uses (0.0, 0.7, 0.8 and 0.9), as the exact value of the
   * double; any other minimum gets the exact difference. The double can lie
   * above the exact difference: 0.8 - 0.2 is 0.6000000000000001.
   */
  function PartialFloor(minConfidence: real): (f: real)
    ensures f < minConfidence
    ensures minConfidence - 0.2 - 0.000000000000001 < f < minConfidence - 0.2 + 0.000000000000001
  {
    if minConfidence == 0.0 then -0.200000000000000011102230246251565404236316680908203125
    else if minConfidence == 0.7 then 0.499999999999999944488848768742172978818416595458984375
    else if minConfidence == 0.8 then 0.600000000000000088817841970012523233890533447265625
    else if minConfidence == 0.9 then 0.6999999999999999555910790149937383830547332763671875
    else minConfidence - 0.2
  }

  /**
   * The confidence criterion: at least the minimum is appropriate, down to
   * the floating-point `min_confidence - 0.2` it is partial, lower is wrong,
   * and no confidence is not scored.
   */
  function ConfidenceMark(e: Expected, a: Actual): (m: Mark)
    ensures m == NotScored <==> a.confidence.None?
    ensures m == Correct <==> a.confidence.Some? && a.confidence.value >= e.minConfidence
    ensures m == Partial <==> a.confidence.Some? && PartialFloor(e.minConfidence) <= a.confidence.value < e.minConfidence
    ensures m == Wrong <==> a.confidence.Some? && a.confidence.value < PartialFloor(e.minConfidence)
  {
    match a.confidence
    case None => NotScored
    case Some(c) =>
      if c >= e.minConfidence then Correct
      else if c >= PartialFloor(e.minConfidence) then Partial
      else Wrong
  }

  /** Tenths a policy or confidence mark earns. */
  function Credit(m: Mark): (t: nat)
    ensures t <= 2
    ensures t == 2 <==> m == Correct
    ensures t == 1 <==> m == Partial
  {
    match m
    case Correct => 2
    case Partial => 1
    case _ => 0
  }

  /** The tenths a set of details is worth: 4 for the approval, 2 for each other criterion. */
  function Tenths(d: Details): (t: nat)
    ensures t <= 10
    ensures t == 10 <==> d.approvalCorrect && d.policyCorrect == Correct && d.confidenceAppropriate == Correct && d.escalationCorrect
    ensures t >= PassMark ==> d.approvalCorrect
  {
    (if d.approvalCorrect then 4 else 0) + Credit(d.policyCorrect) + Credit(d.confidenceAppropriate)
      + (if d.escalationCorrect then 2 else 0)
  }

  /** The details the rule-based grade records. A missing approval or escalation never equals the expectation. */
  function MarkedDetails(e: Expected, a: Actual): Details {
    Details(a.approved == Some(e.approved), PolicyMark(e, a), ConfidenceMark(e, a), a.escalation == Some(e.escalation))
  }

  /** The rule-based grade as a value: the specification of `RuleBasedGrade`. */
  function Graded(testId: string, e: Expected, a: Actual): (g: GradeResult)
    ensures g.testId == testId && g.details == MarkedDetails(e, a)
    ensures 0.0 <= g.score <= 1.0
    ensures g.passed <==> g.score >= 0.7
  {
    var t := Tenths(MarkedDetails(e, a));
    GradeResult(testId, t >= PassMark, t as real / 10.0, MarkedDetails(e, a))
  }

  /** `EvalGrader._rule_based_grade`: the score is built criterion by criterion. */
  method RuleBasedGrade(testId: string, e: Expected, a: Actual) returns (g: GradeResult)
    ensures g == Graded(testId, e, a)
  {
    var tenths := 0;
    var approvalCorrect := false;
    if a.approved == Some(e.approved) {
      tenths := tenths + 4;
      approvalCorrect := true;
    }
    var policyCorrect := NotScored;
    if Truthy(a.policyRef) && e.policyRef != NotApplicable {
      if a.policyRef == RefStr(e.policyRef) {
        tenths := tenths + 2;
        policyCorrect := Correct;
      } else if Text.Contains(Shown(a.policyRef), e.policyRef) {
        tenths := tenths + 1;
        policyCorrect := Partial;
      } else {
        policyCorrect := Wrong;
      }
    }
    var confidenceAppropriate := NotScored;
    if a.confidence.Some? {
      if a.confidence.value >= e.minConfidence {
        tenths := tenths + 2;
        confidenceAppropriate := Correct;
      } else if a.confidence.value >= PartialFloor(e.minConfidence) {
        tenths := tenths + 1;
        confidenceAppropriate := Partial;
      } else {
        confidenceAppropriate := Wrong;
      }
    }
    var escalationCorrect := false;
    if a.escalation == Some(e.escalation) {
      tenths := tenths + 2;
      escalationCorrect := true;
    }
    var details := Details(approvalCorrect, policyCorrect, confidenceAppropriate, escalationCorrect);
    g := GradeResult(testId, tenths >= PassMark, tenths as real / 10.0, details);
  }

  // ---------------------------------------------------------------------------
  // Properties of the rule-based grade
  // ---------------------------------------------------------------------------

  /** Without the right approval decision no answer passes: the other criteria are worth six tenths. */
  lemma PassingNeedsTheApproval(testId: string, e: Expected, a: Actual)
    ensures Graded(testId, e, a).passed ==> a.approved == Some(e.approved)
    ensures a.approved.None? ==> !Graded(testId, e, a).passed && Graded(testId, e, a).score <= 0.6
  {
  }

  /** When the case expects no policy ("N/A") the policy criterion is skipped, so the score is at most 0.8. */
  lemma NotApplicableCapsTheScore(testId: string, e: Expected, a: Actual)
    requires e.policyRef == NotApplicable
    ensures Graded(testId, e, a).details.policyCorrect == NotScored
    ensures Graded(testId, e, a).score <= 0.8
  {
  }

  /** An answer that agrees on every criterion scores 1.0 and passes. */
  lemma FullMatchScoresOne(testId: string, e: Expected, confidence: real)
    requires e.policyRef != NotApplicable && e.policyRef != []
    requires confidence >= e.minConfidence
    ensures var g := Graded(testId, e, Actual(Some(e.approved), RefStr(e.policyRef), Some(confidence), Some(e.escalation)));
      g.score == 1.0 && g.passed
  {
  }

  /** A score of 1.0 means every criterion was fully met. */
  lemma PerfectScoreMeansFullMatch(testId: string, e: Expected, a: Actual)
    requires Graded(testId, e, a).score == 1.0
    ensures a.approved == Some(e.approved) && a.policyRef == RefStr(e.policyRef) && a.escalation == Some(e.escalation)
    ensures a.confidence.Some? && a.confidence.value >= e.minConfidence
  {
    assert Tenths(MarkedDetails(e, a)) == 10;
  }

  /** EvalGrader's own demonstration: a correct denial citing "travel-001" at 0.92 against a minimum of 0.8. */
  lemma DemonstrationPasses()
    ensures var g := Graded("test-001", Expected(false, "travel-001", false, 0.8), Actual(Some(false), RefStr("travel-001"), Some(0.92), Some(false)));
      g.passed && g.score == 1.0
  {
    FullMatchScoresOne("test-001", Expected(false, "travel-001", false, 0.8), 0.92);
  }

  /**
   * With a minimum of 0.8, a confidence of 0.6 is exactly 0.2 below it, yet
   * it earns nothing: the double `0.8 - 0.2` lies above 0.6. An answer with
   * the right decision and reference but the wrong escalation flag then
   * scores six tenths and fails.
   */
  lemma SixTenthsMissesTheFloatFloor()
    ensures var e := Expected(true, "travel-001", false, 0.8);
      var a := Actual(Some(true), RefStr("travel-001"), Some(0.6), Some(true));
      ConfidenceMark(e, a) == Wrong && !Graded("t", e, a).passed && Graded("t", e, a).score == 0.6
  {
  }

  /** Against a minimum of 0.7 the double floor lies below 0.5, so 0.5 earns partial credit. */
  lemma HalfEarnsPartialAgainstSevenTenths()
    ensures ConfidenceMark(Expected(true, "travel-001", false, 0.7), Actual(None, NoRef, Some(0.5), None)) == Partial
  {
  }

  /**
   * A reference that is not a string never counts as correct, but its
   * `str()` can contain the expected one: a list holding "travel-001",
   * shown as "['travel-001']", earns partial credit.
   */
  lemma ListReferenceEarnsPartial(e: Expected, a: Actual)
    requires e.policyRef == "travel-001"
    requires a.policyRef == Other(true, "['travel-001']")
    ensures PolicyMark(e, a) == Partial
  {
    Text.ContainsIff("['travel-001']", "travel-001");
    assert "['travel-001']"[2..12] == "travel-001";
  }

  // ---------------------------------------------------------------------------
  // EvalGrader.grade and grade_batch
  // ---------------------------------------------------------------------------

  /** Everything `EvalGrader.grade` receives. */
  datatype GradeCall = GradeCall(testId: string, query: string, expected: Expected, actualResponse: string, actual: Actual)

  /**
   * The language-model judge, when a client exists: its grade, or `None`
   * when the call or the parsing of its reply raises.
   */
  type Judge = GradeCall -> Option<GradeResult>

  /** `EvalGrader.grade`: the judge's grade, falling back to the rule-based grade without a client or on failure. */
  function Grade(judge: Option<Judge>, call: GradeCall): (g: GradeResult)
    ensures judge.None? ==> g == Graded(call.testId, call.expected, call.actual)
    ensures judge.Some? && judge.value(call).Some? ==> g == judge.value(call).value
    ensures judge.Some? && judge.value(call).None? ==> g == Graded(call.testId, call.expected, call.actual)
  {
    if judge.None? then Graded(call.testId, call.expected, call.actual)
    else match judge.value(call)
      case Some(g) => g
      case None => Graded(call.testId, call.expected, call.actual)
  }

  /** One input record of `grade_batch`; the optional keys are `None` when absent. */
  datatype BatchItem = BatchItem(
    testId: string,
    query: string,
    expectedApproved: bool,
    expectedPolicyRef: string,
    expectedEscalation: Option<bool>,
    minConfidence: real,
    actualResponse: Option<string>,
    actual: Actual)

  /** The call `grade_batch` makes for one record: an absent escalation expectation is false, an absent response empty. */
  function CallFor(item: BatchItem): (call: GradeCall)
    ensures call.testId == item.testId && call.actual == item.actual
    ensures call.expected.escalation <==> item.expectedEscalation == Some(true)
    ensures item.actualResponse.None? ==> call.actualResponse == []
  {
    GradeCall(
      item.testId, item.query,
      Expected(item.expectedApproved, item.expectedPolicyRef, item.expectedEscalation.GetOr(false), item.minConfidence),
      item.actualResponse.GetOr([]),
      item.actual)
  }

  /** `grade_batch`: exactly one grade per record, in the records' order. */
  method GradeBatch(judge: Option<Judge>, results: seq<BatchItem>) returns (grades: seq<GradeResult>)
    ensures |grades| == |results|
    ensures forall i :: 0 <= i < |results| ==> grades[i] == Grade(judge, CallFor(results[i]))
  {
    grades := [];
    for i := 0 to |results|
      invariant |grades| == i
      invariant forall j :: 0 <= j < i ==> grades[j] == Grade(judge, CallFor(results[j]))
    {
      grades := grades + [Grade(judge, CallFor(results[i]))];
    }
  }

  /** Without a client every grade in a batch is the rule-based one, and each carries its record's id. */
  lemma BatchWithoutClientIsRuleBased(results: seq<BatchItem>, grades: seq<GradeResult>, i: nat)
    requires |grades| == |results| && i < |results|
    requires forall j :: 0 <= j < |results| ==> grades[j] == Grade(None, CallFor(results[j]))
    ensures grades[i].testId == results[i].testId
    ensures grades[i] == Graded(results[i].testId, CallFor(results[i]).expected, results[i].actual)
  {
  }
}
