/**
 * The three tools of the policy server (mcp_server.py) and the agent's
 * dispatcher (`execute_tool` in agent.py): the input models' validation, the
 * handlers' answers, and the closed dispatch over the tool names.
 *
 * A tool input arrives as the JSON object the model produced. Validation
 * follows the models' declared constraints: every string is stripped first
 * (`str_strip_whitespace`), unknown keys are refused (`extra="forbid"`), and
 * every failing field is reported. The rendering of answers (JSON text or
 * markdown) is not modelled: an answer is the value the handler renders.
 */
module Tools {
  import opened Wrappers
  import opened Text
  import opened Json
  import Approval
  import Retrieval
  import Config

  // ---------------------------------------------------------------------------
  // Input models
  // ---------------------------------------------------------------------------

  datatype ResponseFormat = Markdown | JsonText

  datatype GetEmployeeInput = GetEmployeeInput(employeeId: string, responseFormat: ResponseFormat)

  datatype SearchPolicyInput = SearchPolicyInput(query: string, maxResults: int, responseFormat: ResponseFormat)

  /** A validated model, or the names of the fields that failed (unknown keys included). */
  datatype Parsed<T> = Valid(value: T) | Invalid(fields: set<string>)

  const GetEmployeeFields: set<string> := {"employee_id", "response_format"}
  const SearchPolicyFields: set<string> := {"query", "max_results", "response_format"}
  const CheckApprovalFields: set<string> := {"employee_id", "amount", "expense_type"}

  /** The keys `extra="forbid"` refuses. */
  function Extra(input: map<string, Value>, declared: set<string>): (bad: set<string>)
    ensures forall k :: k in bad <==> k in input && k !in declared
  {
    set k | k in input && k !in declared
  }

  /** `^emp\d{3}$` (ASCII digits). */
  predicate IsEmployeeIdShape(s: string) {
    |s| == 6 && s[0] == 'e' && s[1] == 'm' && s[2] == 'p' && IsDigit(s[3]) && IsDigit(s[4]) && IsDigit(s[5])
  }

  /** A required string field, stripped, with its length bounds; `None` when missing, not a string or out of bounds. */
  function StrField(input: map<string, Value>, key: string, minLen: nat, maxLen: nat): (r: Option<string>)
    ensures r.Some? <==> key in input && input[key].Str? && minLen <= |Strip(input[key].s)| <= maxLen
    ensures r.Some? ==> r.value == Strip(input[key].s)
  {
    if key in input && input[key].Str? then
      var s := Strip(input[key].s);
      if minLen <= |s| <= maxLen then Some(s) else None
    else None
  }

  /** `GetEmployeeInput.employee_id`: lengths 1 to 50 and the id pattern, after stripping. */
  function GetEmployeeId(input: map<string, Value>): (r: Option<string>)
    ensures r.Some? ==> IsEmployeeIdShape(r.value)
  {
    match StrField(input, "employee_id", 1, 50)
    case Some(s) => if IsEmployeeIdShape(s) then Some(s) else None
    case None => None
  }

  /** `CheckApprovalInput.employee_id`: the id pattern only, after stripping. */
  function CheckApprovalId(input: map<string, Value>): (r: Option<string>)
    ensures r.Some? ==> IsEmployeeIdShape(r.value)
  {
    if "employee_id" in input && input["employee_id"].Str? && IsEmployeeIdShape(Strip(input["employee_id"].s)) then
      Some(Strip(input["employee_id"].s))
    else None
  }

  /**
   * The two models declare the id differently (one adds lengths 1 to 50) but
   * accept exactly the same ids: the pattern already fixes the length at six.
   */
  lemma EmployeeIdLengthBoundsAreImplied(input: map<string, Value>)
    ensures GetEmployeeId(input) == CheckApprovalId(input)
  {
  }

  /** `response_format`: `"json"` when absent. */
  function Format(input: map<string, Value>): (r: Option<ResponseFormat>)
    ensures "response_format" !in input ==> r == Some(JsonText)
    ensures r == Some(Markdown) <==> "response_format" in input && input["response_format"] == Str("markdown")
  {
    if "response_format" !in input then Some(JsonText)
    else match input["response_format"]
      case Str(s) => if s == "json" then Some(JsonText) else if s == "markdown" then Some(Markdown) else None
      case _ => None
  }

  /** `max_results`: an integer from 1 to 10, 3 when absent. */
  function MaxResults(input: map<string, Value>): (r: Option<int>)
    ensures r.Some? ==> 1 <= r.value <= 10
    ensures "max_results" !in input ==> r == Some(3)
  {
    if "max_results" !in input then Some(3)
    else match input["max_results"]
      case Int(i) => if 1 <= i <= 10 then Some(i) else None
      case _ => None
  }

  /** `amount`: a number in the half-open range (0, 1000000]. */
  function Amount(input: map<string, Value>): (r: Option<real>)
    ensures r.Some? ==> 0.0 < r.value <= 1000000.0
    ensures r.Some? <==> "amount" in input && IsNumber(input["amount"])
                         && 0.0 < NumberValue(input["amount"]) <= 1000000.0
  {
    if "amount" in input && IsNumber(input["amount"]) then
      var x := NumberValue(input["amount"]);
      if 0.0 < x <= 1000000.0 then Some(x) else None
    else None
  }

  function Failed<T>(field: string, r: Option<T>): set<string> {
    if r.None? then {field} else {}
  }

  function GetEmployeeErrors(input: map<string, Value>): set<string> {
    Failed("employee_id", GetEmployeeId(input)) + Failed("response_format", Format(input))
    + Extra(input, GetEmployeeFields)
  }

  /** `GetEmployeeInput(**tool_input)`. */
  function ParseGetEmployee(input: map<string, Value>): (r: Parsed<GetEmployeeInput>)
    ensures r.Valid? <==> GetEmployeeErrors(input) == {}
    ensures r.Invalid? ==> r.fields == GetEmployeeErrors(input) != {}
  {
    var errors := GetEmployeeErrors(input);
    if errors == {} then
      assert "employee_id" !in errors && "response_format" !in errors;
      Valid(GetEmployeeInput(GetEmployeeId(input).value, Format(input).value))
    else Invalid(errors)
  }

  function SearchPolicyErrors(input: map<string, Value>): set<string> {
    Failed("query", StrField(input, "query", 3, 500)) + Failed("max_results", MaxResults(input))
    + Failed("response_format", Format(input)) + Extra(input, SearchPolicyFields)
  }

  /** `SearchPolicyInput(**tool_input)`. */
  function ParseSearchPolicy(input: map<string, Value>): (r: Parsed<SearchPolicyInput>)
    ensures r.Valid? <==> SearchPolicyErrors(input) == {}
    ensures r.Invalid? ==> r.fields == SearchPolicyErrors(input) != {}
  {
    var errors := SearchPolicyErrors(input);
    if errors == {} then
      assert "query" !in errors && "max_results" !in errors && "response_format" !in errors;
      Valid(SearchPolicyInput(StrField(input, "query", 3, 500).value, MaxResults(input).value, Format(input).value))
    else Invalid(errors)
  }

  function CheckApprovalErrors(input: map<string, Value>): set<string> {
    Failed("employee_id", CheckApprovalId(input)) + Failed("amount", Amount(input))
    + Failed("expense_type", StrField(input, "expense_type", 1, 100)) + Extra(input, CheckApprovalFields)
  }

  /** `CheckApprovalInput(**tool_input)`. */
  function ParseCheckApproval(input: map<string, Value>): (r: Parsed<Approval.CheckApprovalParams>)
    ensures r.Valid? <==> CheckApprovalErrors(input) == {}
    ensures r.Invalid? ==> r.fields == CheckApprovalErrors(input) != {}
  {
    var errors := CheckApprovalErrors(input);
    if errors == {} then
      assert "employee_id" !in errors && "amount" !in errors && "expense_type" !in errors;
      Valid(Approval.CheckApprovalParams(CheckApprovalId(input).value, Amount(input).value,
                                         StrField(input, "expense_type", 1, 100).value))
    else Invalid(errors)
  }

  /**
   * A search request is accepted exactly when it has no unknown key, its
   * query is a string of 3 to 500 characters once stripped, `max_results`
   * is absent or an integer from 1 to 10, and the format is absent, "json"
   * or "markdown". The accepted query is the stripped one.
   */
  lemma SearchInputAcceptedIff(input: map<string, Value>)
    ensures ParseSearchPolicy(input).Valid? <==>
      && input.Keys <= SearchPolicyFields
      && "query" in input && input["query"].Str? && 3 <= |Strip(input["query"].s)| <= 500
      && ("max_results" in input ==> input["max_results"].Int? && 1 <= input["max_results"].i <= 10)
      && ("response_format" in input ==> input["response_format"] in {Str("json"), Str("markdown")})
    ensures ParseSearchPolicy(input).Valid? ==>
      var p := ParseSearchPolicy(input).value;
      p.query == Strip(input["query"].s) && 1 <= p.maxResults <= 10
  {
    var e := SearchPolicyErrors(input);
    if input.Keys <= SearchPolicyFields {
      assert Extra(input, SearchPolicyFields) == {};
    } else {
      var k :| k in input && k !in SearchPolicyFields;
      assert k in e;
    }
  }

  /**
   * An approval request is accepted exactly when it has no unknown key, the
   * stripped id has the `emp` + three digits shape, the amount is a number
   * in (0, 1000000] (zero is refused) and the stripped expense type has 1 to
   * 100 characters.
   */
  lemma CheckApprovalInputAcceptedIff(input: map<string, Value>)
    ensures ParseCheckApproval(input).Valid? <==>
      && input.Keys <= CheckApprovalFields
      && "employee_id" in input && input["employee_id"].Str? && IsEmployeeIdShape(Strip(input["employee_id"].s))
      && "amount" in input && IsNumber(input["amount"]) && 0.0 < NumberValue(input["amount"]) <= 1000000.0
      && "expense_type" in input && input["expense_type"].Str? && 1 <= |Strip(input["expense_type"].s)| <= 100
  {
    var e := CheckApprovalErrors(input);
    if input.Keys <= CheckApprovalFields {
      assert Extra(input, CheckApprovalFields) == {};
    } else {
      var k :| k in input && k !in CheckApprovalFields;
      assert k in e;
    }
  }

  /** An employee lookup is accepted exactly when it has no unknown key, a well-shaped id and a known format. */
  lemma GetEmployeeInputAcceptedIff(input: map<string, Value>)
    ensures ParseGetEmployee(input).Valid? <==>
      && input.Keys <= GetEmployeeFields
      && "employee_id" in input && input["employee_id"].Str? && IsEmployeeIdShape(Strip(input["employee_id"].s))
      && ("response_format" in input ==> input["response_format"] in {Str("json"), Str("markdown")})
  {
    var e := GetEmployeeErrors(input);
    EmployeeIdLengthBoundsAreImplied(input);
    assert e == {} <==> GetEmployeeId(input).Some? && Format(input).Some? && Extra(input, GetEmployeeFields) == {};
    assert Format(input).Some? <==>
      ("response_format" in input ==> input["response_format"] in {Str("json"), Str("markdown")});
    if input.Keys <= GetEmployeeFields {
      assert Extra(input, GetEmployeeFields) == {};
    } else {
      var k :| k in input && k !in GetEmployeeFields;
      assert k in Extra(input, GetEmployeeFields);
    }
  }

  // ---------------------------------------------------------------------------
  // Handlers
  // ---------------------------------------------------------------------------

  /**
   * The data the handlers read: the employee directory and rule set of the
   * data files, and the built policy index (chunks, embedding matrix) with
   * the query-to-row relevance that `np.dot` computes.
   */
  datatype Backend = Backend(
    directory: Approval.Directory,
    rules: Approval.RuleSet,
    chunks: seq<Retrieval.PolicyChunk>,
    matrix: seq<Retrieval.Vector>,
    relevance: string -> Retrieval.Vector -> real)
  {
    /** The index's alignment: one matrix row per chunk. */
    predicate Aligned() {
      |matrix| == |chunks|
    }
  }

  /** A tool's answer, before it is rendered as text. */
  datatype ToolOutput =
    | EmployeeFound(employee: Approval.Employee, levelCategory: string, format: ResponseFormat)
    | EmployeeMissing(message: string)
    | PolicySearch(query: string, isConfident: bool, threshold: real,
                   results: seq<Retrieval.PolicyHit>, format: ResponseFormat)
    | ApprovalAnswer(reply: Approval.ApprovalReply)
    | UnknownTool(message: string)
    | ExecutionFailed(invalidFields: set<string>)

  /** The string `get_employee_info` returns for an unknown id. */
  function EmployeeMissingMessage(id: string, validIds: seq<string>): string {
    "Error: Employee '" + id + "' not found. Valid IDs: " + Join(validIds, ", ")
  }

  /** `get_employee_info`. */
  function GetEmployeeInfo(dir: Approval.Directory, params: GetEmployeeInput): (out: ToolOutput)
    ensures out.EmployeeFound? || out.EmployeeMissing?
    ensures out.EmployeeFound? ==>
      Approval.Lookup(dir, params.employeeId) == Some(out.employee) && out.employee.id == params.employeeId
      && out.levelCategory == Approval.LevelToCategory(out.employee.level) && out.format == params.responseFormat
  {
    match Approval.Lookup(dir, params.employeeId)
    case Some(e) => EmployeeFound(e, Approval.LevelToCategory(e.level), params.responseFormat)
    case None => EmployeeMissing(EmployeeMissingMessage(params.employeeId, Approval.Keys(dir)))
  }

  /** The employee tool answers "not found", listing every directory id, exactly for an id outside the directory. */
  lemma EmployeeMissingIffUnknownId(dir: Approval.Directory, params: GetEmployeeInput)
    ensures GetEmployeeInfo(dir, params).EmployeeMissing? <==> params.employeeId !in Approval.Keys(dir)
    ensures GetEmployeeInfo(dir, params).EmployeeMissing? ==>
      GetEmployeeInfo(dir, params).message == EmployeeMissingMessage(params.employeeId, Approval.Keys(dir))
  {
    Approval.LookupFindsExactlyKeys(dir, params.employeeId);
  }

  /** `search_policy_manual`: the hits of `search_policies`, cut to `max_results`; the flag is taken before the cut. */
  function SearchPolicyManual(backend: Backend, params: SearchPolicyInput): (out: ToolOutput)
    requires backend.Aligned()
    requires 1 <= params.maxResults
    ensures out.PolicySearch?
    ensures |out.results| <= params.maxResults && |out.results| <= Config.TopKChunks
    ensures out.query == params.query && out.threshold == Config.RetrievalConfidenceThreshold
  {
    var scores := Retrieval.Scores(backend.matrix, backend.relevance(params.query));
    var (hits, confident) := Retrieval.PolicyHits(backend.chunks, scores);
    var n := if params.maxResults < |hits| then params.maxResults else |hits|;
    PolicySearch(params.query, confident, Config.RetrievalConfidenceThreshold, hits[..n], params.responseFormat)
  }

  /** A best-first list whose flag is carried by its first hit keeps the flag in every non-empty prefix. */
  lemma PrefixKeepsConfidence(hits: seq<Retrieval.PolicyHit>, confident: bool, n: nat)
    requires n <= |hits| && (1 <= n || hits == [])
    requires confident <==> exists j :: 0 <= j < |hits| && hits[j].isConfident
    requires confident ==> hits != [] && hits[0].isConfident
    ensures confident <==> exists j :: 0 <= j < |hits[..n]| && hits[..n][j].isConfident
  {
    if confident {
      assert hits[..n][0] == hits[0];
    } else {
      forall j | 0 <= j < n ensures !hits[..n][j].isConfident {
        assert hits[..n][j] == hits[j];
      }
    }
  }

  /**
   * Cutting to `max_results` never hides confidence: the results come best
   * first and at least one is kept, so the overall flag is set exactly when
   * some returned result is itself confident.
   */
  lemma TruncationKeepsConfidence(backend: Backend, params: SearchPolicyInput)
    requires backend.Aligned()
    requires 1 <= params.maxResults
    ensures var out := SearchPolicyManual(backend, params);
      out.isConfident <==> exists j :: 0 <= j < |out.results| && out.results[j].isConfident
  {
    var scores := Retrieval.Scores(backend.matrix, backend.relevance(params.query));
    Retrieval.GateOpenMeansFirstHitConfident(backend.chunks, scores);
    var (hits, confident) := Retrieval.PolicyHits(backend.chunks, scores);
    var n := if params.maxResults < |hits| then params.maxResults else |hits|;
    PrefixKeepsConfidence(hits, confident, n);
  }

  /** `check_approval_threshold`. */
  function CheckApprovalThreshold(backend: Backend, params: Approval.CheckApprovalParams): (out: ToolOutput)
    ensures out.ApprovalAnswer?
    ensures out.reply.EmployeeUnknown? <==> params.employeeId !in Approval.Keys(backend.directory)
  {
    Approval.LookupFindsExactlyKeys(backend.directory, params.employeeId);
    ApprovalAnswer(Approval.ApprovalCheck(backend.directory, backend.rules, params))
  }

  // ---------------------------------------------------------------------------
  // The dispatcher
  // ---------------------------------------------------------------------------

  const GetEmployeeTool: string := "policy_get_employee_info"
  const SearchManualTool: string := "policy_search_manual"
  const CheckApprovalTool: string := "policy_check_approval_threshold"

  /**
   * `execute_tool`: a closed dispatch on the three tool names that never
   * raises. An unknown name and an input its model refuses both come back
   * as error answers.
   */
  function ExecuteTool(backend: Backend, name: string, input: map<string, Value>): (out: ToolOutput)
    requires backend.Aligned()
    ensures out.UnknownTool? <==> name !in {GetEmployeeTool, SearchManualTool, CheckApprovalTool}
    ensures out.UnknownTool? ==> out.message == "Unknown tool: " + name
  {
    if name == GetEmployeeTool then
      match ParseGetEmployee(input)
      case Valid(p) => GetEmployeeInfo(backend.directory, p)
      case Invalid(fields) => ExecutionFailed(fields)
    else if name == SearchManualTool then
      match ParseSearchPolicy(input)
      case Valid(p) => SearchPolicyManual(backend, p)
      case Invalid(fields) => ExecutionFailed(fields)
    else if name == CheckApprovalTool then
      match ParseCheckApproval(input)
      case Valid(p) => CheckApprovalThreshold(backend, p)
      case Invalid(fields) => ExecutionFailed(fields)
    else UnknownTool("Unknown tool: " + name)
  }

  /**
   * A known tool fails exactly when its input model refuses the input, and
   * then reports the failing fields; otherwise it answers with its own kind
   * of result.
   */
  lemma DispatchFollowsValidation(backend: Backend, name: string, input: map<string, Value>)
    requires backend.Aligned()
    ensures name == GetEmployeeTool ==>
      (ExecuteTool(backend, name, input).ExecutionFailed? <==> GetEmployeeErrors(input) != {})
      && (GetEmployeeErrors(input) == {} ==>
            ExecuteTool(backend, name, input).EmployeeFound? || ExecuteTool(backend, name, input).EmployeeMissing?)
    ensures name == SearchManualTool ==>
      (ExecuteTool(backend, name, input).ExecutionFailed? <==> SearchPolicyErrors(input) != {})
      && (SearchPolicyErrors(input) == {} ==> ExecuteTool(backend, name, input).PolicySearch?)
    ensures name == CheckApprovalTool ==>
      (ExecuteTool(backend, name, input).ExecutionFailed? <==> CheckApprovalErrors(input) != {})
      && (CheckApprovalErrors(input) == {} ==> ExecuteTool(backend, name, input).ApprovalAnswer?)
    ensures ExecuteTool(backend, name, input).ExecutionFailed? ==> ExecuteTool(backend, name, input).invalidFields != {}
  {
  }

  /** Every search answer holds at most `min(max_results, 3)` hits, whatever the index holds. */
  lemma SearchAnswerBounded(backend: Backend, input: map<string, Value>)
    requires backend.Aligned()
    ensures var out := ExecuteTool(backend, SearchManualTool, input);
      out.PolicySearch? ==> |out.results| <= Config.TopKChunks && |out.results| <= ParseSearchPolicy(input).value.maxResults
  {
  }
}
