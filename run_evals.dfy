/**
 * The evaluation runner: the keyword-driven stand-in agent (`MockAgent`),
 * one test run with its error path (`EvalRunner.run_single` and
 * `_parse_response`), the aggregation over the selected test cases
 * (`EvalRunner.run_all`) and the overall verdict of the report.
 *
 * Python's `None` in a parsed answer is JSON `null` here: `dict.get`
 * yields `None` both for an absent key and for a `null` value.
 */
module EvalRunner {
  import opened Wrappers
  import opened Json
  import Text
  import Agent
  import Guardrails
  import Grader
  import TestCases

  // ---------------------------------------------------------------------------
  // MockAgent
  // ---------------------------------------------------------------------------

  /** The dict `MockAgent.run` returns. */
  datatype MockAnswer = MockAnswer(approved: bool, reason: string, policyRef: string, confidence: real, escalation: bool)

  const MockConfidence: real := 0.85
  const SelfApprovalConfidence: real := 0.95
  const MockReasonPrefix: string := "Mock response for: "

  /** `query[:50]`. */
  function Head(query: string): (h: string)
    ensures |h| <= 50 && |h| <= |query| && h == query[..|h|]
  {
    if |query| <= 50 then query else query[..50]
  }

  /**
   * `MockAgent.run`: the first keyword of the lower-cased query that
   * matches decides the answer; the employee id is ignored.
   */
  function MockRun(query: string, employeeId: string): (r: MockAnswer)
    ensures r.reason == MockReasonPrefix + Head(query) + "..."
    ensures r.confidence == SelfApprovalConfidence || r.confidence == MockConfidence
    ensures r.escalation ==> r.approved && r.policyRef == "travel-001"
  {
    var q := Text.Lower(query);
    var reason := MockReasonPrefix + Head(query) + "...";
    if Text.Contains(q, "first class") then
      var senior := Text.Contains(q, "director") || Text.Contains(q, "vp");
      MockAnswer(senior, reason, "travel-001", MockConfidence, senior)
    else if Text.Contains(q, "business class") then
      MockAnswer(false, reason, "travel-001", MockConfidence, false)
    else if Text.Contains(q, "hotel") then
      MockAnswer(true, reason, "travel-002", MockConfidence, false)
    else if Text.Contains(q, "meal") || Text.Contains(q, "dinner") then
      MockAnswer(true, reason, "expense-001", MockConfidence, false)
    else if Text.Contains(q, "software") then
      MockAnswer(true, reason, "expense-002", MockConfidence, false)
    else if Text.Contains(q, "approve") && Text.Contains(q, "own") then
      MockAnswer(false, reason, "approval-002", SelfApprovalConfidence, false)
    else
      MockAnswer(false, reason, "unknown", MockConfidence, false)
  }

  /** The keywords of the mock's ladder, in the order it tries them. */
  predicate MentionsAnyKeyword(q: string) {
    || Text.Contains(q, "first class") || Text.Contains(q, "business class") || Text.Contains(q, "hotel")
    || Text.Contains(q, "meal") || Text.Contains(q, "dinner") || Text.Contains(q, "software")
    || (Text.Contains(q, "approve") && Text.Contains(q, "own"))
  }

  /**
   * The ladder's outcomes: the raised confidence belongs only to the
   * self-approval rung, a query with none of the keywords gets the
   * "unknown" denial, and a business-class request is always denied.
   */
  lemma MockLadder(query: string, employeeId: string)
    ensures var q := Text.Lower(query); var r := MockRun(query, employeeId);
      && (r.confidence == SelfApprovalConfidence <==> r.policyRef == "approval-002")
      && (r.policyRef == "unknown" <==> !MentionsAnyKeyword(q))
      && (r.policyRef == "unknown" ==> !r.approved && !r.escalation && r.confidence == MockConfidence)
      && (Text.Contains(q, "business class") && !Text.Contains(q, "first class") ==> !r.approved && r.policyRef == "travel-001")
  {
  }

  /** The mock ignores the employee: two employees asking the same question get the same answer. */
  lemma MockIgnoresEmployee(query: string, a: string, b: string)
    ensures MockRun(query, a) == MockRun(query, b)
  {
  }

  /** The mock's dict as a JSON object. */
  function MockResponse(m: MockAnswer): (v: Value)
    ensures v.Object? && v.fields.Keys == {"approved", "reason", "policy_reference", "confidence", "requires_escalation"}
  {
    Object(map[
      "approved" := Bool(m.approved),
      "reason" := Str(m.reason),
      "policy_reference" := Str(m.policyRef),
      "confidence" := Num(m.confidence),
      "requires_escalation" := Bool(m.escalation)])
  }

  // ---------------------------------------------------------------------------
  // The answer under test
  // ---------------------------------------------------------------------------

  /** The text `_parse_response` decodes: the contents of the first ```json block, else the whole text. */
  function JsonSource(text: string): (source: string)
    ensures Agent.ExtractJsonBlock(text).Some? ==> source == Agent.ExtractJsonBlock(text).value
    ensures Agent.ExtractJsonBlock(text).None? ==> source == text
  {
    match Agent.ExtractJsonBlock(text)
    case Some(block) => block
    case None => text
  }

  /** `_parse_response`: the decoded source, or `{}` when it is not JSON. */
  function ParseResponse(decode: Agent.Decoder, text: string): (v: Value)
    ensures decode(JsonSource(text)).Parsed? ==> v == decode(JsonSource(text)).value
    ensures decode(JsonSource(text)).Malformed? ==> v == Object(map[])
  {
    match decode(JsonSource(text))
    case Malformed => Object(map[])
    case Parsed(v) => v
  }

  /** The dict built from an accepted structured decision. */
  function StructuredResponse(d: Guardrails.Decision): (v: Value)
    ensures v.Object? && v.fields.Keys == {"approved", "policy_reference", "confidence", "requires_escalation"}
  {
    Object(map[
      "approved" := Bool(d.approved),
      "policy_reference" := Str(d.policyReference),
      "confidence" := Num(d.confidence),
      "requires_escalation" := Bool(d.requiresEscalation)])
  }

  /**
   * Who answers the test queries: the mock (with `json.dumps` as `dumps`),
   * or the real agent's `run` (modelled by `Agent.Run`) with `json.loads`
   * as `decode`. Both carry Python's `str()` of a decoded value as `show`,
   * which the grade applies to a policy reference that is not a string.
   */
  datatype Runner =
    | Mock(dumps: Value -> string, show: Value -> string)
    | Live(run: string -> Agent.AgentResponse, decode: Agent.Decoder, show: Value -> string)

  /** The query the real agent receives: the employee id, then the question. */
  function FullQuery(tc: TestCases.TestCase): string {
    "Employee " + tc.employeeId + ": " + tc.query
  }

  /** The response text and the response value `run_single` goes on to read. */
  function Respond(runner: Runner, tc: TestCases.TestCase): (out: (string, Value))
    ensures runner.Mock? ==> out.1 == MockResponse(MockRun(tc.query, tc.employeeId))
    ensures runner.Live? ==> out.0 == runner.run(FullQuery(tc)).rawResponse
  {
    match runner
    case Mock(dumps, _) =>
      var v := MockResponse(MockRun(tc.query, tc.employeeId));
      (dumps(v), v)
    case Live(run, decode, _) =>
      var resp := run(FullQuery(tc));
      (resp.rawResponse,
       match resp.structured
       case Some(d) => StructuredResponse(d)
       case None => ParseResponse(decode, resp.rawResponse))
  }

  // ---------------------------------------------------------------------------
  // Python semantics of the rule-based grade on untyped values
  // ---------------------------------------------------------------------------

  /** The name Python reports for a value's type. */
  function TypeName(v: Value): string {
    match v
    case Null => "NoneType"
    case Bool(_) => "bool"
    case Int(_) => "int"
    case Num(_) => "float"
    case Str(_) => "str"
    case Array(_) => "list"
    case Object(_) => "dict"
  }

  /** `d.get(key)`: the value, or `None`. */
  function Get(fields: map<string, Value>, key: string): Value {
    if key in fields then fields[key] else Null
  }

  /** Python's `v == b` for a boolean `b`: booleans compare with 0 and 1 of either number type. */
  predicate PyEqualsBool(v: Value, b: bool) {
    match v
    case Bool(x) => x == b
    case Int(i) => i == (if b then 1 else 0)
    case Num(r) => r == (if b then 1.0 else 0.0)
    case _ => false
  }

  /** The boolean a value equals in Python, if any: what EvalGrader's `==` against a boolean can see. */
  function AsBool(v: Value): (r: Option<bool>)
    ensures forall b :: r == Some(b) <==> PyEqualsBool(v, b)
  {
    match v
    case Bool(x) => Some(x)
    case Int(i) => if i == 1 then Some(true) else if i == 0 then Some(false) else None
    case Num(x) => if x == 1.0 then Some(true) else if x == 0.0 then Some(false) else None
    case _ => None
  }

  /** Python's truth value of a decoded value. */
  predicate PyTruthy(v: Value) {
    match v
    case Null => false
    case Bool(b) => b
    case Int(i) => i != 0
    case Num(x) => x != 0.0
    case Str(s) => s != []
    case Array(items) => items != []
    case Object(fields) => |fields| != 0
  }

  /**
   * The policy reference as EvalGrader reads it: a string stays a string
   * (only a string can equal the expected reference); any other value keeps
   * its truth value and its `str()` text for the containment test.
   */
  function AsPolicyRef(v: Value, show: Value -> string): (r: Grader.PolicyRefValue)
    ensures r.RefStr? <==> v.Str?
    ensures Grader.Truthy(r) <==> PyTruthy(v)
    ensures v.Str? ==> Grader.Shown(r) == v.s
    ensures !v.Str? ==> Grader.Shown(r) == show(v)
  {
    if v.Str? then Grader.RefStr(v.s) else Grader.Other(PyTruthy(v), show(v))
  }

  /** A confidence EvalGrader can compare with a float, or the `TypeError` message of `>=`. */
  datatype Confidence = Comparable(value: Option<real>) | Incomparable(message: string)

  function AsConfidence(v: Value): (c: Confidence)
    ensures c.Incomparable? <==> v.Str? || v.Array? || v.Object?
    ensures c.Incomparable? ==> |c.message| > 0
  {
    match v
    case Null => Comparable(None)
    case Bool(b) => Comparable(Some(if b then 1.0 else 0.0))
    case Int(i) => Comparable(Some(i as real))
    case Num(r) => Comparable(Some(r))
    case _ => Incomparable("'>=' not supported between instances of '" + TypeName(v) + "' and 'float'")
  }

  // ---------------------------------------------------------------------------
  // run_single
  // ---------------------------------------------------------------------------

  /** `EvalResult`; the duration is not modelled. */
  datatype EvalResult = EvalResult(
    testCase: TestCases.TestCase,
    responseText: string,
    parsedApproved: Value,
    parsedPolicyRef: Value,
    parsedConfidence: Value,
    parsedEscalation: Value,
    grade: Option<Grader.GradeResult>,
    error: Option<string>)

  function ExpectedOf(tc: TestCases.TestCase): Grader.Expected {
    Grader.Expected(tc.expectedApproved, tc.expectedPolicyRef, tc.expectedEscalation, tc.minConfidence)
  }

  /** The result of an exception: nothing parsed, no grade, the message kept. */
  function ErrorResult(tc: TestCases.TestCase, message: string): EvalResult {
    EvalResult(tc, [], Null, Null, Null, Null, None, Some(message))
  }

  /**
   * `EvalRunner.run_single`: read the four fields of the response and
   * grade them with the rule-based grader. A response that is not a dict
   * has no `get`, and a confidence that cannot be compared with a float
   * makes EvalGrader raise; both end in the error result.
   */
  function RunSingle(runner: Runner, tc: TestCases.TestCase): (r: EvalResult)
    ensures r.testCase == tc
    ensures r.grade.Some? <==> r.error.None?
    ensures r.error.Some? ==> (|r.error.value| > 0 && r.responseText == [] && r.parsedApproved == Null
                               && r.parsedPolicyRef == Null && r.parsedConfidence == Null && r.parsedEscalation == Null)
    ensures r.error.None? ==> r.responseText == Respond(runner, tc).0 && Respond(runner, tc).1.Object?
  {
    var (text, response) := Respond(runner, tc);
    if !response.Object? then
      ErrorResult(tc, "'" + TypeName(response) + "' object has no attribute 'get'")
    else
      var approved := Get(response.fields, "approved");
      var policyRef := Get(response.fields, "policy_reference");
      var confidence := Get(response.fields, "confidence");
      var escalation := Get(response.fields, "requires_escalation");
      match AsConfidence(confidence)
      case Incomparable(message) => ErrorResult(tc, message)
      case Comparable(c) =>
        var actual := Grader.Actual(AsBool(approved), AsPolicyRef(policyRef, runner.show), c, AsBool(escalation));
        EvalResult(tc, text, approved, policyRef, confidence, escalation,
                   Some(Grader.Graded(tc.id, ExpectedOf(tc), actual)), None)
  }

  /** Exactly two things make a run fail: a response that is not a dict, and a confidence of the wrong type. */
  lemma RunSingleErrorIff(runner: Runner, tc: TestCases.TestCase)
    ensures var response := Respond(runner, tc).1;
      RunSingle(runner, tc).error.Some? <==>
        !response.Object? || AsConfidence(Get(response.fields, "confidence")).Incomparable?
  {
  }

  /** The mock's answers always grade: they are dicts with a float confidence. */
  lemma MockRunsNeverFail(dumps: Value -> string, show: Value -> string, tc: TestCases.TestCase)
    ensures RunSingle(Mock(dumps, show), tc).error.None?
    ensures RunSingle(Mock(dumps, show), tc).parsedConfidence.Num?
  {
    var m := MockRun(tc.query, tc.employeeId);
    assert Get(MockResponse(m).fields, "confidence") == Num(m.confidence);
  }

  /** An answer the agent structured itself also always grades. */
  lemma StructuredAnswersNeverFail(runner: Runner, tc: TestCases.TestCase)
    requires runner.Live?
    requires runner.run(FullQuery(tc)).structured.Some?
    ensures RunSingle(runner, tc).error.None?
  {
    var d := runner.run(FullQuery(tc)).structured.value;
    assert Get(StructuredResponse(d).fields, "confidence") == Num(d.confidence);
  }

  // ---------------------------------------------------------------------------
  // run_all
  // ---------------------------------------------------------------------------

  /** `run_all`'s selection: every case when no categories (or an empty list) are given, else those in the list. */
  function Selected(categories: Option<seq<TestCases.Category>>): (r: seq<TestCases.TestCase>)
    ensures categories.None? || categories.value == [] ==> r == TestCases.Cases
    ensures forall tc :: tc in r <==> tc in TestCases.Cases && (categories.None? || categories.value == [] || tc.category in categories.value)
  {
    if categories.None? || categories.value == [] then TestCases.Cases
    else TestCases.Where(TestCases.Cases, c => c in categories.value)
  }

  /** The results of running each case in order (the `results` list). */
  function RunEach(runner: Runner, cases: seq<TestCases.TestCase>): (rs: seq<EvalResult>)
    ensures |rs| == |cases|
  {
    if cases == [] then [] else RunEach(runner, cases[..|cases| - 1]) + [RunSingle(runner, cases[|cases| - 1])]
  }

  /** Running one more case appends its result. */
  lemma RunEachExtends(runner: Runner, cases: seq<TestCases.TestCase>, i: nat)
    requires i < |cases|
    ensures RunEach(runner, cases[..i + 1]) == RunEach(runner, cases[..i]) + [RunSingle(runner, cases[i])]
  {
    assert cases[..i + 1][..i] == cases[..i];
  }

  /** The results are the cases' results, one each, in order. */
  lemma {:induction false} RunEachIsPointwise(runner: Runner, cases: seq<TestCases.TestCase>, i: nat)
    requires i < |cases|
    ensures RunEach(runner, cases)[i] == RunSingle(runner, cases[i])
  {
    if i < |cases| - 1 {
      RunEachIsPointwise(runner, cases[..|cases| - 1], i);
    }
  }

  /** One `by_category` entry. */
  datatype CategoryStats = CategoryStats(total: nat, passed: nat, failed: nat)

  /** One entry of `failures`: an error, or a failed grade with what was expected and what was answered. */
  datatype Failure =
    | ErrorEntry(testId: string, message: string)
    | FailureEntry(testId: string, expectedApproved: bool, actualApproved: Value,
                   expectedPolicy: string, actualPolicy: Value, score: real)

  /** The running totals of `run_all`. */
  datatype Tally = Tally(
    passed: nat,
    failed: nat,
    errors: nat,
    totalScore: real,
    byCategory: map<string, CategoryStats>,
    failures: seq<Failure>)

  /** Which of the three counters a result goes to. */
  datatype Bucket = Errored | Passed | Failed

  /** `if result.error:` (a message that is present and non-empty), then `elif result.grade and result.grade.passed:`. */
  function BucketOf(r: EvalResult): Bucket {
    if r.error.Some? && r.error.value != [] then Errored
    else if r.grade.Some? && r.grade.value.passed then Passed
    else Failed
  }

  /** The score a result adds to the total: its grade's, or 0 without a grade; errors add nothing. */
  function ScoreOf(r: EvalResult): real {
    if BucketOf(r) == Errored || r.grade.None? then 0.0 else r.grade.value.score
  }

  /** A category's entry after one more result: its total always grows, and so does the result's bucket. */
  function Bump(stats: CategoryStats, b: Bucket): (s: CategoryStats)
    ensures s.total == stats.total + 1
    ensures s.passed + s.failed == stats.passed + stats.failed + (if b == Errored then 0 else 1)
  {
    match b
    case Errored => stats.(total := stats.total + 1)
    case Passed => stats.(total := stats.total + 1, passed := stats.passed + 1)
    case Failed => stats.(total := stats.total + 1, failed := stats.failed + 1)
  }

  /** The key a result is grouped under. */
  function KeyOf(r: EvalResult): string {
    TestCases.CategoryValue(r.testCase.category)
  }

  /**
   * One iteration of `run_all`'s loop: the result lands in exactly one
   * counter, a failure entry is added unless it passed, and only its own
   * category's entry changes.
   */
  function Step(t: Tally, r: EvalResult): (s: Tally)
    ensures s.passed + s.failed + s.errors == t.passed + t.failed + t.errors + 1
    ensures s.errors == t.errors + (if r.error.Some? && r.error.value != [] then 1 else 0)
    ensures |s.failures| == |t.failures| + (if BucketOf(r) == Passed then 0 else 1)
    ensures t.failures <= s.failures
    ensures s.byCategory.Keys == t.byCategory.Keys + {KeyOf(r)}
    ensures forall k :: k in t.byCategory && k != KeyOf(r) ==> s.byCategory[k] == t.byCategory[k]
    ensures s.byCategory[KeyOf(r)].total == (if KeyOf(r) in t.byCategory then t.byCategory[KeyOf(r)].total else 0) + 1
  {
    var tc := r.testCase;
    var key := KeyOf(r);
    var stats := if key in t.byCategory then t.byCategory[key] else CategoryStats(0, 0, 0);
    var byCategory := t.byCategory[key := Bump(stats, BucketOf(r))];
    match BucketOf(r)
    case Errored =>
      t.(errors := t.errors + 1, byCategory := byCategory, failures := t.failures + [ErrorEntry(tc.id, r.error.value)])
    case Passed =>
      t.(passed := t.passed + 1, totalScore := t.totalScore + ScoreOf(r), byCategory := byCategory)
    case Failed =>
      t.(failed := t.failed + 1, totalScore := t.totalScore + ScoreOf(r), byCategory := byCategory,
         failures := t.failures + [FailureEntry(tc.id, tc.expectedApproved, r.parsedApproved,
                                                tc.expectedPolicyRef, r.parsedPolicyRef, ScoreOf(r))])
  }

  /**
   * The totals after the results, taken in order. Every result lands in
   * exactly one of the three counters and every error and failure is
   * recorded.
   */
  function TallyOf(results: seq<EvalResult>): (t: Tally)
    ensures t.passed + t.failed + t.errors == |results|
    ensures |t.failures| == t.errors + t.failed
  {
    if results == [] then Tally(0, 0, 0, 0.0, map[], [])
    else Step(TallyOf(results[..|results| - 1]), results[|results| - 1])
  }

  /** Counting one more result is one more step. */
  lemma TallyOfAppend(results: seq<EvalResult>, r: EvalResult)
    ensures TallyOf(results + [r]) == Step(TallyOf(results), r)
  {
    assert (results + [r])[..|results|] == results;
  }

  /** How many of the results belong to the category with that value. */
  function CountIn(results: seq<EvalResult>, key: string): (n: nat)
    ensures n <= |results|
  {
    if results == [] then 0
    else CountIn(results[..|results| - 1], key) + (if KeyOf(results[|results| - 1]) == key then 1 else 0)
  }

  /**
   * `by_category` holds an entry exactly for the categories that were run;
   * its total counts every case of the category, errors included, so the
   * passes and failures never exceed it.
   */
  lemma {:induction false} CategoryStatsCountCases(results: seq<EvalResult>, key: string)
    ensures var t := TallyOf(results);
      && (key in t.byCategory <==> CountIn(results, key) > 0)
      && (key in t.byCategory ==> t.byCategory[key].total == CountIn(results, key)
                                  && t.byCategory[key].passed + t.byCategory[key].failed <= t.byCategory[key].total)
  {
    if results != [] {
      CategoryStatsCountCases(results[..|results| - 1], key);
    }
  }

  /** A grade as the rule-based grader gives it: a score in [0, 1] that passes only from 0.7 up. */
  predicate WellGraded(r: EvalResult) {
    r.grade.Some? ==> 0.0 <= r.grade.value.score <= 1.0 && (r.grade.value.passed <==> r.grade.value.score >= 0.7)
  }

  /** Every result `run_single` produces is well graded. */
  lemma RunSingleIsWellGraded(runner: Runner, tc: TestCases.TestCase)
    ensures WellGraded(RunSingle(runner, tc))
  {
  }

  /** The score total lies between 0.7 per pass and 1 per graded (passed or failed) result. */
  lemma {:induction false} TotalScoreBounds(results: seq<EvalResult>)
    requires forall i :: 0 <= i < |results| ==> WellGraded(results[i])
    ensures var t := TallyOf(results);
      0.7 * t.passed as real <= t.totalScore <= (t.passed + t.failed) as real
  {
    if results != [] {
      TotalScoreBounds(results[..|results| - 1]);
    }
  }

  /** `EvalReport`; the timestamp and the durations are not modelled. */
  datatype EvalReport = EvalReport(
    totalTests: nat,
    passed: nat,
    failed: nat,
    errors: nat,
    passRate: real,
    avgScore: real,
    byCategory: map<string, CategoryStats>,
    failures: seq<Failure>)

  /** `x / n`, or 0 when there are no tests. */
  function Ratio(x: real, n: nat): real {
    if n > 0 then x / n as real else 0.0
  }

  /** The report built from the totals over `n` tests. */
  function ReportOf(t: Tally, n: nat): EvalReport {
    EvalReport(n, t.passed, t.failed, t.errors, Ratio(t.passed as real, n), Ratio(t.totalScore, n), t.byCategory, t.failures)
  }

  /**
   * The report `run_all` returns, as a value: the specification of `RunAll`.
   * It counts every selected case once, as passed, failed or errored, and
   * lists one failure entry per failure or error.
   */
  function RunAllSpec(runner: Runner, categories: Option<seq<TestCases.Category>>): (report: EvalReport)
    ensures report.totalTests == |Selected(categories)|
    ensures report.passed + report.failed + report.errors == report.totalTests
    ensures |report.failures| == report.errors + report.failed
  {
    var cases := Selected(categories);
    ReportOf(TallyOf(RunEach(runner, cases)), |cases|)
  }

  /** `EvalRunner.run_all`: select the cases, then run them in order keeping the counters. */
  method RunAll(runner: Runner, categories: Option<seq<TestCases.Category>>) returns (report: EvalReport)
    ensures report == RunAllSpec(runner, categories)
  {
    var cases := TestCases.Cases;
    if categories.Some? && categories.value != [] {
      cases := TestCases.Where(cases, c => c in categories.value);
    }
    report := RunCases(runner, cases);
  }

  /** `run_all` after the selection: the loop, then the report. */
  method RunCases(runner: Runner, cases: seq<TestCases.TestCase>) returns (report: EvalReport)
    ensures report == ReportOf(TallyOf(RunEach(runner, cases)), |cases|)
  {
    var results, passed, failed, errors, totalScore, byCategory, failures := RunLoop(runner, cases);
    var total := |cases|;
    report := EvalReport(total, passed, failed, errors,
                         if total > 0 then passed as real / total as real else 0.0,
                         if total > 0 then totalScore / total as real else 0.0,
                         byCategory, failures);
  }

  /** The loop of `run_all`: run each case, keep its result, and count it. */
  method RunLoop(runner: Runner, cases: seq<TestCases.TestCase>)
    returns (results: seq<EvalResult>, passed: nat, failed: nat, errors: nat, totalScore: real,
             byCategory: map<string, CategoryStats>, failures: seq<Failure>)
    ensures results == RunEach(runner, cases)
    ensures Tally(passed, failed, errors, totalScore, byCategory, failures) == TallyOf(results)
  {
    results := [];
    passed, failed, errors := 0, 0, 0;
    totalScore := 0.0;
    byCategory := map[];
    failures := [];
    for i := 0 to |cases|
      invariant results == RunEach(runner, cases[..i])
      invariant Tally(passed, failed, errors, totalScore, byCategory, failures) == TallyOf(results)
    {
      var result := RunSingle(runner, cases[i]);
      passed, failed, errors, totalScore, byCategory, failures :=
        Record(passed, failed, errors, totalScore, byCategory, failures, result);
      TallyOfAppend(results, result);
      RunEachExtends(runner, cases, i);
      results := results + [result];
    }
    assert cases[..|cases|] == cases;
  }

  /** The body of `run_all`'s loop: count one result. */
  method Record(passed: nat, failed: nat, errors: nat, totalScore: real,
                byCategory: map<string, CategoryStats>, failures: seq<Failure>, result: EvalResult)
    returns (passed': nat, failed': nat, errors': nat, totalScore': real,
             byCategory': map<string, CategoryStats>, failures': seq<Failure>)
    ensures Tally(passed', failed', errors', totalScore', byCategory', failures') ==
            Step(Tally(passed, failed, errors, totalScore, byCategory, failures), result)
  {
    var tc := result.testCase;
    passed', failed', errors', totalScore', byCategory', failures' := passed, failed, errors, totalScore, byCategory, failures;
    var key := TestCases.CategoryValue(tc.category);
    if key !in byCategory' {
      byCategory' := byCategory'[key := CategoryStats(0, 0, 0)];
    }
    byCategory' := byCategory'[key := byCategory'[key].(total := byCategory'[key].total + 1)];
    if result.error.Some? && result.error.value != [] {
      errors' := errors' + 1;
      failures' := failures' + [ErrorEntry(tc.id, result.error.value)];
    } else if result.grade.Some? && result.grade.value.passed {
      passed' := passed' + 1;
      totalScore' := totalScore' + result.grade.value.score;
      byCategory' := byCategory'[key := byCategory'[key].(passed := byCategory'[key].passed + 1)];
    } else {
      failed' := failed' + 1;
      byCategory' := byCategory'[key := byCategory'[key].(failed := byCategory'[key].failed + 1)];
      var score := if result.grade.Some? then result.grade.value.score else 0.0;
      totalScore' := totalScore' + score;
      failures' := failures' + [FailureEntry(tc.id, tc.expectedApproved, result.parsedApproved,
                                             tc.expectedPolicyRef, result.parsedPolicyRef, score)];
    }
  }

  /** A fraction of the tests is between 0 and 1, and is 0 when there are no tests. */
  lemma RatioIsFraction(x: real, n: nat)
    requires 0.0 <= x <= n as real
    ensures 0.0 <= Ratio(x, n) <= 1.0
    ensures n == 0 ==> Ratio(x, n) == 0.0
    ensures n > 0 && x == n as real ==> Ratio(x, n) == 1.0
    ensures x == 0.0 ==> Ratio(x, n) == 0.0
  {
    if n > 0 {
      assert x / n as real <= n as real / n as real;
    }
  }

  /**
   * The report's counts add up, and the pass rate and the average score
   * are fractions that are 0 for an empty run.
   */
  lemma ReportIsConsistent(results: seq<EvalResult>)
    requires forall i :: 0 <= i < |results| ==> WellGraded(results[i])
    ensures var report := ReportOf(TallyOf(results), |results|);
      && report.passed + report.failed + report.errors == report.totalTests
      && |report.failures| == report.errors + report.failed
      && 0.0 <= report.passRate <= 1.0 && 0.0 <= report.avgScore <= 1.0
      && (report.totalTests == 0 ==> report.passRate == 0.0 && report.avgScore == 0.0)
  {
    var t := TallyOf(results);
    TotalScoreBounds(results);
    RatioIsFraction(t.passed as real, |results|);
    RatioIsFraction(t.totalScore, |results|);
  }

  /** Every report `run_all` returns is consistent. */
  lemma RunAllReportIsConsistent(runner: Runner, categories: Option<seq<TestCases.Category>>)
    ensures var report := RunAllSpec(runner, categories);
      && report.passed + report.failed + report.errors == report.totalTests
      && 0.0 <= report.passRate <= 1.0 && 0.0 <= report.avgScore <= 1.0
  {
    var cases := Selected(categories);
    var results := RunEach(runner, cases);
    forall i | 0 <= i < |results| ensures WellGraded(results[i]) {
      RunEachIsPointwise(runner, cases, i);
      RunSingleIsWellGraded(runner, cases[i]);
    }
    ReportIsConsistent(results);
  }

  // ---------------------------------------------------------------------------
  // The verdict of print_report
  // ---------------------------------------------------------------------------

  datatype Verdict = Pass | Marginal | Fail

  /** The overall verdict: at least 0.9 passes, at least 0.7 is marginal, below fails. */
  function VerdictOf(passRate: real): (v: Verdict)
    ensures v == Pass <==> passRate >= 0.9
    ensures v == Marginal <==> 0.7 <= passRate < 0.9
    ensures v == Fail <==> passRate < 0.7
  {
    if passRate >= 0.9 then Pass
    else if passRate >= 0.7 then Marginal
    else Fail
  }

  function Rank(v: Verdict): nat {
    match v
    case Fail => 0
    case Marginal => 1
    case Pass => 2
  }

  /** A higher pass rate never earns a worse verdict. */
  lemma VerdictIsMonotone(r1: real, r2: real)
    requires r1 <= r2
    ensures Rank(VerdictOf(r1)) <= Rank(VerdictOf(r2))
  {
  }

  /** A run in which every test passes is a PASS; a run with no passes (or no tests) is a FAIL. */
  lemma VerdictExtremes(results: seq<EvalResult>)
    ensures var report := ReportOf(TallyOf(results), |results|);
      && (report.totalTests > 0 && report.passed == report.totalTests ==> VerdictOf(report.passRate) == Pass)
      && (report.passed == 0 ==> VerdictOf(report.passRate) == Fail)
  {
    var t := TallyOf(results);
    RatioIsFraction(t.passed as real, |results|);
    assert VerdictOf(1.0) == Pass && VerdictOf(0.0) == Fail;
  }
}
