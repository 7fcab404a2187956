/**
 * The agent's orchestration loop (agent.py): input validation, at most ten
 * model calls, tool execution in block order with an audit trail, and the
 * extraction and validation of the final structured answer.
 *
 * The language model is a function from the conversation so far and the
 * number of calls left to its next turn, and `json.loads` a function from text to a decode outcome; both are
 * parameters. The non-streaming and the streaming loops are methods proved
 * equal to the recursive functions `RunLoop` and `StreamLoop`.
 */
module Agent {
  import opened Wrappers
  import opened Text
  import opened Json
  import opened Messages
  import Tools
  import Guardrails
  import Prompts
  import Config

  datatype StopReason = EndTurn | ToolUseStop | OtherStop(name: string)

  /** One reply of the model: why it stopped, its content blocks, and the text deltas it streamed. */
  datatype Turn = Turn(stopReason: StopReason, blocks: seq<Block>, deltas: seq<string>)

  /**
   * The model: its next turn for a conversation and the number of calls the
   * loop still allows. A run starts with ten, so the number identifies the
   * call, and the same conversation sent twice may get two different turns.
   */
  type Model = (seq<Message>, nat) -> Turn

  /** `json.loads`, as the outcome it has on each text. */
  type Decoder = string -> Doc

  /** One entry of the `tool_calls` audit trail. */
  datatype ToolCall = ToolCall(tool: string, input: map<string, Value>, output: Tools.ToolOutput)

  /** `AgentResponse`. */
  datatype AgentResponse = AgentResponse(
    rawResponse: string,
    structured: Option<Guardrails.Decision>,
    toolCalls: seq<ToolCall>,
    error: Option<string>)

  const MaxIterationsError: string := "Maximum iterations reached without final response"
  const StreamMaxIterationsError: string := "Maximum iterations reached"

  // ---------------------------------------------------------------------------
  // Blocks of one turn
  // ---------------------------------------------------------------------------

  /** The text blocks of a turn, concatenated in order (the `final_text +=` loop). */
  function FinalText(blocks: seq<Block>): string {
    if blocks == [] then []
    else
      var last := blocks[|blocks| - 1];
      FinalText(blocks[..|blocks| - 1]) + (if last.TextBlock? then last.text else [])
  }

  /** The text of a turn is the text of its first part followed by the text of the rest. */
  lemma {:induction false} FinalTextAppend(a: seq<Block>, b: seq<Block>)
    ensures FinalText(a + b) == FinalText(a) + FinalText(b)
    decreases |b|
  {
    if b == [] {
      assert a + b == a;
    } else {
      var b' := b[..|b| - 1];
      var last := b[|b| - 1];
      assert (a + b)[..|a + b| - 1] == a + b';
      assert (a + b)[|a + b| - 1] == last;
      FinalTextAppend(a, b');
    }
  }

  /** Tool blocks contribute nothing to the final text. */
  lemma {:induction false} ToolBlocksAddNoText(blocks: seq<Block>)
    requires forall j :: 0 <= j < |blocks| ==> blocks[j].ToolUse?
    ensures FinalText(blocks) == []
  {
    if blocks != [] {
      ToolBlocksAddNoText(blocks[..|blocks| - 1]);
    }
  }

  /** The tool-use blocks of a turn, in block order. */
  function ToolUses(blocks: seq<Block>): (uses: seq<Block>)
    ensures forall j :: 0 <= j < |uses| ==> uses[j].ToolUse? && uses[j] in blocks
    ensures |uses| <= |blocks|
  {
    if blocks == [] then []
    else
      var last := blocks[|blocks| - 1];
      ToolUses(blocks[..|blocks| - 1]) + (if last.ToolUse? then [last] else [])
  }

  /** The audit entry for one tool-use block: its name, its input and the dispatcher's answer. */
  function CallOf(backend: Tools.Backend, u: Block): ToolCall
    requires backend.Aligned() && u.ToolUse?
  {
    ToolCall(u.name, u.input, Tools.ExecuteTool(backend, u.name, u.input))
  }

  /**
   * Running the tools of one turn: one audit entry and one result per
   * tool-use block, in block order, each result carrying its block's id and
   * the answer recorded in the audit entry.
   */
  function ExecuteBlocks(backend: Tools.Backend, blocks: seq<Block>): (out: (seq<ToolCall>, seq<ToolResult>))
    requires backend.Aligned()
    ensures |out.0| == |out.1| == |ToolUses(blocks)|
    ensures forall j :: 0 <= j < |out.0| ==>
      out.0[j] == CallOf(backend, ToolUses(blocks)[j])
      && out.1[j] == ToolResult(ToolUses(blocks)[j].id, out.0[j].output)
  {
    if blocks == [] then ([], [])
    else
      var init := blocks[..|blocks| - 1];
      var last := blocks[|blocks| - 1];
      var (calls, results) := ExecuteBlocks(backend, init);
      if last.ToolUse? then
        var c := CallOf(backend, last);
        (calls + [c], results + [ToolResult(last.id, c.output)])
      else (calls, results)
  }

  /** `"\n[Calling tool: <name>...]\n"`, the marker streamed before each tool runs. */
  function CallingMarker(name: string): string {
    "\n[Calling tool: " + name + "...]\n"
  }

  function Markers(uses: seq<Block>): (ms: seq<string>)
    requires forall j :: 0 <= j < |uses| ==> uses[j].ToolUse?
    ensures |ms| == |uses|
    ensures forall j :: 0 <= j < |uses| ==> ms[j] == CallingMarker(uses[j].name)
  {
    seq(|uses|, j requires 0 <= j < |uses| => CallingMarker(uses[j].name))
  }

  /** `"".join(deltas)`. */
  function Concat(deltas: seq<string>): string {
    if deltas == [] then [] else Concat(deltas[..|deltas| - 1]) + deltas[|deltas| - 1]
  }

  // ---------------------------------------------------------------------------
  // The final answer
  // ---------------------------------------------------------------------------

  const OpenFence: string := "```json"
  const CloseFence: string := "```"

  /** An opening fence starts with a closing one. */
  lemma OpenFenceStartsWithClose(text: string, p: nat)
    requires HasAt(text, OpenFence, p)
    ensures HasAt(text, CloseFence, p)
  {
    assert text[p..p + 3] == text[p..p + 7][..3];
  }

  /** The seven characters of an opening fence. */
  lemma OpenFenceChars(text: string, p: nat)
    requires HasAt(text, OpenFence, p)
    ensures p + 7 <= |text|
    ensures text[p] == '`' && text[p + 1] == '`' && text[p + 2] == '`'
    ensures text[p + 3] == 'j' && text[p + 4] == 's' && text[p + 5] == 'o' && text[p + 6] == 'n'
  {
    var w := text[p..p + 7];
    assert w == OpenFence;
    assert text[p] == w[0] && text[p + 1] == w[1] && text[p + 2] == w[2] && text[p + 3] == w[3];
    assert text[p + 4] == w[4] && text[p + 5] == w[5] && text[p + 6] == w[6];
  }

  /** Two opening fences never overlap: the one at `p` is the first, so a later one starts at or after `p + 7`. */
  lemma OpenFencesDoNotOverlap(text: string, p: nat, p': nat)
    requires HasAt(text, OpenFence, p) && HasAt(text, OpenFence, p') && p < p'
    ensures p + 7 <= p'
  {
    OpenFenceChars(text, p);
    OpenFenceChars(text, p');
    // a later fence starting inside the one at p would put a backquote on one of the letters of "json"
    assert p' != p + 1 && p' != p + 2 && p' != p + 3;
    assert p' != p + 4 && p' != p + 5 && p' != p + 6;
  }

  /** A closing fence at or after `p + 7` follows an opening fence at `p`. */
  predicate FencedPair(text: string, p: nat, q: nat) {
    HasAt(text, OpenFence, p) && p + 7 <= q && HasAt(text, CloseFence, q)
  }

  /** Some opening fence is followed by a closing fence. */
  ghost predicate HasFencedBlock(text: string) {
    exists p: nat, q: nat :: FencedPair(text, p, q)
  }

  /** The pair the non-greedy pattern picks: the first opening fence, and the first closing fence after it. */
  predicate FirstFencedPair(text: string, p: nat, q: nat) {
    && FencedPair(text, p, q)
    && (forall k :: 0 <= k < p ==> !HasAt(text, OpenFence, k))
    && (forall k :: p + 7 <= k < q ==> !HasAt(text, CloseFence, k))
  }

  /** Without an opening fence there is no block. */
  lemma NoOpenFence(text: string)
    requires FindFrom(text, OpenFence, 0).None?
    ensures !HasFencedBlock(text)
  {
  }

  /** When the first opening fence has no closing fence after it, no opening fence has one. */
  lemma NoCloseAfterFirstOpen(text: string, p: nat)
    requires FindFrom(text, OpenFence, 0) == Some(p) && FindFrom(text, CloseFence, p + 7).None?
    ensures forall p': nat, q: nat :: HasAt(text, OpenFence, p') && p' + 7 <= q ==> !HasAt(text, CloseFence, q)
    ensures !HasFencedBlock(text)
  {
    forall p': nat, q: nat | HasAt(text, OpenFence, p') && p' + 7 <= q
      ensures !HasAt(text, CloseFence, q)
    {
      if p' != p {
        OpenFencesDoNotOverlap(text, p, p');
        OpenFenceStartsWithClose(text, p');
      }
    }
  }

  /** The fences the two searches find are the first pair. */
  lemma FirstFencedBlock(text: string, p: nat, q: nat)
    requires FindFrom(text, OpenFence, 0) == Some(p) && FindFrom(text, CloseFence, p + 7) == Some(q)
    ensures FirstFencedPair(text, p, q) && HasFencedBlock(text)
  {
    assert FencedPair(text, p, q);
  }

  /**
   * `re.search(r'```json\s*(.*?)\s*```', text, re.DOTALL).group(1)`: the
   * text between the first "```json" and the next "```", without its outer
   * whitespace (the greedy and lazy parts of the pattern leave exactly that).
   */
  function ExtractJsonBlock(text: string): (r: Option<string>)
    ensures r.Some? <==> HasFencedBlock(text)
    ensures r.Some? ==> exists p: nat, q: nat :: FirstFencedPair(text, p, q) && r.value == Strip(text[p + 7..q])
  {
    match FindFrom(text, OpenFence, 0)
    case None =>
      NoOpenFence(text);
      None
    case Some(p) =>
      match FindFrom(text, CloseFence, p + 7)
      case None =>
        NoCloseAfterFirstOpen(text, p);
        None
      case Some(q) =>
        FirstFencedBlock(text, p, q);
        Some(Strip(text[p + 7..q]))
  }

  /**
   * `_process_final_response`: the raw text is kept whole and no error is
   * set; a structured decision is attached exactly when a fenced block
   * exists and the output guardrail accepts its contents. A contents that
   * makes the guardrail raise is swallowed like a rejection.
   */
  function ProcessFinalResponse(decode: Decoder, text: string, toolCalls: seq<ToolCall>): (resp: AgentResponse)
    ensures resp.rawResponse == text && resp.error.None? && resp.toolCalls == toolCalls
    ensures resp.structured.Some? <==>
      ExtractJsonBlock(text).Some? && Guardrails.ValidateStructuredResponse(decode(ExtractJsonBlock(text).value)).Accepted?
    ensures resp.structured.Some? ==>
      resp.structured.value == Guardrails.ValidateStructuredResponse(decode(ExtractJsonBlock(text).value)).decision
  {
    match ExtractJsonBlock(text)
    case None => AgentResponse(text, None, toolCalls, None)
    case Some(js) =>
      match Guardrails.ValidateStructuredResponse(decode(js))
      case Accepted(d) => AgentResponse(text, Some(d), toolCalls, None)
      case _ => AgentResponse(text, None, toolCalls, None)
  }

  /** Every decision the agent returns obeys the schema bounds and the escalation rule. */
  lemma StructuredAnswersObeyOutputRule(decode: Decoder, text: string, toolCalls: seq<ToolCall>)
    requires ProcessFinalResponse(decode, text, toolCalls).structured.Some?
    ensures var d := ProcessFinalResponse(decode, text, toolCalls).structured.value;
      |d.reason| >= 10 && 0.0 <= d.confidence <= 1.0 && (d.confidence < 0.5 ==> d.requiresEscalation)
  {
    Guardrails.AcceptedDecisionsObeyRule(decode(ExtractJsonBlock(text).value));
  }

  // ---------------------------------------------------------------------------
  // run
  // ---------------------------------------------------------------------------

  /** The conversation after a tool-use turn: the assistant's turn, then one user message with the tool results. */
  function AfterTools(backend: Tools.Backend, messages: seq<Message>, turn: Turn): seq<Message>
    requires backend.Aligned()
  {
    messages + [Message(Assistant, AssistantBlocks(turn.blocks)),
                Message(User, ToolResults(ExecuteBlocks(backend, turn.blocks).1))]
  }

  /** The rest of `run`'s loop with `fuel` model calls left. */
  function RunLoop(backend: Tools.Backend, model: Model, decode: Decoder,
                   messages: seq<Message>, toolCalls: seq<ToolCall>, fuel: nat): AgentResponse
    requires backend.Aligned()
    decreases fuel
  {
    if fuel == 0 then AgentResponse([], None, toolCalls, Some(MaxIterationsError))
    else
      var turn := model(messages, fuel);
      match turn.stopReason
      case EndTurn => ProcessFinalResponse(decode, FinalText(turn.blocks), toolCalls)
      case ToolUseStop =>
        RunLoop(backend, model, decode, AfterTools(backend, messages, turn),
                toolCalls + ExecuteBlocks(backend, turn.blocks).0, fuel - 1)
      case OtherStop(_) => RunLoop(backend, model, decode, messages, toolCalls, fuel - 1)
  }

  /** What `run` answers. */
  function RunSpec(backend: Tools.Backend, model: Model, decode: Decoder, userQuery: string): AgentResponse
    requires backend.Aligned()
  {
    var v := Guardrails.Validate(userQuery);
    if !v.isValid then AgentResponse([], None, [], v.errorMessage)
    else
      Guardrails.ValidateAcceptsIff(userQuery);
      RunLoop(backend, model, decode, Prompts.InitialMessages(v.sanitizedInput.value, true), [], Config.MaxIterations)
  }

  /** The `final_text` loop of `run`. */
  method CollectText(blocks: seq<Block>) returns (finalText: string)
    ensures finalText == FinalText(blocks)
  {
    finalText := [];
    var i := 0;
    while i < |blocks|
      invariant 0 <= i <= |blocks|
      invariant finalText == FinalText(blocks[..i])
    {
      assert blocks[..i + 1][..i] == blocks[..i];
      if blocks[i].TextBlock? {
        finalText := finalText + blocks[i].text;
      }
      i := i + 1;
    }
    assert blocks[..i] == blocks;
  }

  /** The tool loop of one turn: run each tool-use block in order, recording its call and its result. */
  method RunTools(backend: Tools.Backend, blocks: seq<Block>) returns (calls: seq<ToolCall>, results: seq<ToolResult>)
    requires backend.Aligned()
    ensures (calls, results) == ExecuteBlocks(backend, blocks)
  {
    calls, results := [], [];
    var i := 0;
    while i < |blocks|
      invariant 0 <= i <= |blocks|
      invariant (calls, results) == ExecuteBlocks(backend, blocks[..i])
    {
      assert blocks[..i + 1][..i] == blocks[..i];
      var block := blocks[i];
      if block.ToolUse? {
        var result := Tools.ExecuteTool(backend, block.name, block.input);
        calls := calls + [ToolCall(block.name, block.input, result)];
        results := results + [ToolResult(block.id, result)];
      }
      i := i + 1;
    }
    assert blocks[..i] == blocks;
  }

  /** One pass of `run`'s loop: call the model, then finish on an ending turn or run the tools it asked for. */
  method RunTurn(backend: Tools.Backend, model: Model, decode: Decoder,
                 messages: seq<Message>, toolCalls: seq<ToolCall>, fuel: nat)
    returns (done: bool, resp: AgentResponse, messages': seq<Message>, toolCalls': seq<ToolCall>)
    requires backend.Aligned() && fuel > 0
    ensures done ==> resp == RunLoop(backend, model, decode, messages, toolCalls, fuel)
    ensures !done ==> RunLoop(backend, model, decode, messages', toolCalls', fuel - 1)
                      == RunLoop(backend, model, decode, messages, toolCalls, fuel)
  {
    messages', toolCalls' := messages, toolCalls;
    resp := AgentResponse([], None, toolCalls, None);
    done := false;
    var turn := model(messages, fuel);
    if turn.stopReason == EndTurn {
      var finalText := CollectText(turn.blocks);
      resp := ProcessFinalResponse(decode, finalText, toolCalls);
      done := true;
      return;
    }
    if turn.stopReason == ToolUseStop {
      messages' := messages' + [Message(Assistant, AssistantBlocks(turn.blocks))];
      var calls, results := RunTools(backend, turn.blocks);
      toolCalls' := toolCalls' + calls;
      messages' := messages' + [Message(User, ToolResults(results))];
      assert messages' == AfterTools(backend, messages, turn);
    }
  }

  /** `PolicyAgent.run`. */
  method Run(backend: Tools.Backend, model: Model, decode: Decoder, userQuery: string) returns (resp: AgentResponse)
    requires backend.Aligned()
    ensures resp == RunSpec(backend, model, decode, userQuery)
  {
    var validation := Guardrails.Validate(userQuery);
    if !validation.isValid {
      return AgentResponse([], None, [], validation.errorMessage);
    }
    Guardrails.ValidateAcceptsIff(userQuery);
    var messages := Prompts.BuildMessages(validation.sanitizedInput.value, true);
    var toolCalls: seq<ToolCall> := [];
    var i := 0;
    while i < Config.MaxIterations
      invariant 0 <= i <= Config.MaxIterations
      invariant RunLoop(backend, model, decode, messages, toolCalls, Config.MaxIterations - i)
                == RunSpec(backend, model, decode, userQuery)
    {
      var done;
      done, resp, messages, toolCalls := RunTurn(backend, model, decode, messages, toolCalls, Config.MaxIterations - i);
      if done {
        return;
      }
      i := i + 1;
    }
    resp := AgentResponse([], None, toolCalls, Some(MaxIterationsError));
  }

  // ---------------------------------------------------------------------------
  // Properties of run
  // ---------------------------------------------------------------------------

  /**
   * Rejected input is answered with the guardrail's message, empty text and
   * no tool calls, and without consulting the model: the answer is the same
   * whatever the model would say.
   */
  lemma RejectedInputSkipsModel(backend: Tools.Backend, m1: Model, m2: Model, decode: Decoder, userQuery: string)
    requires backend.Aligned()
    requires !Guardrails.Validate(userQuery).isValid
    ensures RunSpec(backend, m1, decode, userQuery) == RunSpec(backend, m2, decode, userQuery)
    ensures RunSpec(backend, m1, decode, userQuery) ==
      AgentResponse([], None, [], Guardrails.Validate(userQuery).errorMessage)
    ensures RunSpec(backend, m1, decode, userQuery).error.Some?
  {
    Guardrails.ValidateAcceptsIff(userQuery);
  }

  /**
   * The loop either finishes through `_process_final_response` (no error)
   * or runs out of calls, answering with the exhaustion error, no text and
   * no decision; either way the audit trail only grows.
   */
  lemma {:induction false} RunLoopOutcome(backend: Tools.Backend, model: Model, decode: Decoder,
                                          messages: seq<Message>, toolCalls: seq<ToolCall>, fuel: nat)
    requires backend.Aligned()
    ensures var resp := RunLoop(backend, model, decode, messages, toolCalls, fuel);
      && toolCalls <= resp.toolCalls
      && (resp.error.None? || resp == AgentResponse([], None, resp.toolCalls, Some(MaxIterationsError)))
    decreases fuel
  {
    if fuel > 0 {
      var turn := model(messages, fuel);
      match turn.stopReason
      case EndTurn =>
      case ToolUseStop =>
        var calls := ExecuteBlocks(backend, turn.blocks).0;
        RunLoopOutcome(backend, model, decode, AfterTools(backend, messages, turn), toolCalls + calls, fuel - 1);
      case OtherStop(_) =>
        RunLoopOutcome(backend, model, decode, messages, toolCalls, fuel - 1);
    }
  }

  /** The conversations `run` sends to the model, in order (the `i`-th with `fuel - i` calls left). */
  function Requests(backend: Tools.Backend, model: Model, messages: seq<Message>, fuel: nat): (rs: seq<seq<Message>>)
    requires backend.Aligned()
    ensures |rs| <= fuel
    decreases fuel
  {
    if fuel == 0 then []
    else
      var turn := model(messages, fuel);
      match turn.stopReason
      case EndTurn => [messages]
      case ToolUseStop => [messages] + Requests(backend, model, AfterTools(backend, messages, turn), fuel - 1)
      case OtherStop(_) => [messages] + Requests(backend, model, messages, fuel - 1)
  }

  /** Two models give the same reply to each request, the `i`-th made with `fuel - i` calls left. */
  ghost predicate AgreeOn(m1: Model, m2: Model, rs: seq<seq<Message>>, fuel: nat) {
    forall i: nat :: i < |rs| && i <= fuel ==> m1(rs[i], fuel - i) == m2(rs[i], fuel - i)
  }

  /**
   * The answer depends on the model only through its replies to the
   * requests: two models that agree on every request the loop makes give the
   * same answer and receive the same requests.
   */
  lemma {:induction false} RunLoopSeesOnlyRequests(backend: Tools.Backend, m1: Model, m2: Model, decode: Decoder,
                                                   messages: seq<Message>, toolCalls: seq<ToolCall>, fuel: nat)
    requires backend.Aligned()
    requires AgreeOn(m1, m2, Requests(backend, m1, messages, fuel), fuel)
    ensures RunLoop(backend, m1, decode, messages, toolCalls, fuel) == RunLoop(backend, m2, decode, messages, toolCalls, fuel)
    ensures Requests(backend, m1, messages, fuel) == Requests(backend, m2, messages, fuel)
    decreases fuel
  {
    if fuel > 0 {
      var rs := Requests(backend, m1, messages, fuel);
      assert rs[0] == messages;
      assert m1(rs[0], fuel - 0) == m2(rs[0], fuel - 0);
      var turn := m1(messages, fuel);
      if !turn.stopReason.EndTurn? {
        var next := if turn.stopReason.ToolUseStop? then AfterTools(backend, messages, turn) else messages;
        var calls := if turn.stopReason.ToolUseStop? then toolCalls + ExecuteBlocks(backend, turn.blocks).0 else toolCalls;
        var rest := Requests(backend, m1, next, fuel - 1);
        assert rs == [messages] + rest;
        forall i: nat | i < |rest| && i <= fuel - 1 ensures m1(rest[i], fuel - 1 - i) == m2(rest[i], fuel - 1 - i) {
          assert rest[i] == rs[i + 1];
        }
        RunLoopSeesOnlyRequests(backend, m1, m2, decode, next, calls, fuel - 1);
      }
    }
  }

  /**
   * At most `fuel` model calls, and the conversation only grows: every
   * request extends the starting messages and the request before it.
   */
  lemma {:induction false} RequestsAppendOnly(backend: Tools.Backend, model: Model, messages: seq<Message>, fuel: nat)
    requires backend.Aligned()
    ensures var rs := Requests(backend, model, messages, fuel);
      && |rs| <= fuel
      && (rs != [] ==> rs[0] == messages)
      && (forall i :: 0 <= i < |rs| ==> messages <= rs[i])
      && (forall i :: 0 <= i < |rs| - 1 ==> rs[i] <= rs[i + 1])
    decreases fuel
  {
    if fuel > 0 {
      var turn := model(messages, fuel);
      var next := if turn.stopReason.ToolUseStop? then AfterTools(backend, messages, turn) else messages;
      if !turn.stopReason.EndTurn? {
        RequestsAppendOnly(backend, model, next, fuel - 1);
        var rest := Requests(backend, model, next, fuel - 1);
        assert Requests(backend, model, messages, fuel) == [messages] + rest;
        assert messages <= next;
        forall i | 0 <= i < |rest| ensures messages <= rest[i] {
          assert next <= rest[i];
        }
      }
    }
  }

  /** `run` makes at most ten model calls, the first on the exemplars followed by the sanitised query. */
  lemma AtMostTenModelCalls(backend: Tools.Backend, model: Model, userQuery: string)
    requires backend.Aligned()
    requires Guardrails.Validate(userQuery).isValid
    ensures Guardrails.Validate(userQuery).sanitizedInput.Some?
    ensures var start := Prompts.InitialMessages(Guardrails.Validate(userQuery).sanitizedInput.value, true);
      var rs := Requests(backend, model, start, Config.MaxIterations);
      |rs| <= 10 && (forall i :: 0 <= i < |rs| ==> start <= rs[i])
  {
    Guardrails.ValidateAcceptsIff(userQuery);
    var start := Prompts.InitialMessages(Guardrails.Validate(userQuery).sanitizedInput.value, true);
    RequestsAppendOnly(backend, model, start, Config.MaxIterations);
  }

  /**
   * A tool-use turn appends exactly two messages: the assistant's turn and a
   * user message holding one result per tool-use block, in block order, with
   * the block's id; the audit trail gains the matching calls in that order.
   */
  lemma ToolUseTurnAppends(backend: Tools.Backend, messages: seq<Message>, turn: Turn)
    requires backend.Aligned()
    ensures var next := AfterTools(backend, messages, turn);
      var uses := ToolUses(turn.blocks);
      var (calls, results) := ExecuteBlocks(backend, turn.blocks);
      && |next| == |messages| + 2 && next[..|messages|] == messages
      && next[|messages|] == Message(Assistant, AssistantBlocks(turn.blocks))
      && next[|messages| + 1] == Message(User, ToolResults(results))
      && |results| == |calls| == |uses|
      && (forall j :: 0 <= j < |uses| ==>
            results[j].toolUseId == uses[j].id && calls[j].tool == uses[j].name
            && calls[j].input == uses[j].input && results[j].content == calls[j].output
            && calls[j].output == Tools.ExecuteTool(backend, uses[j].name, uses[j].input))
  {
  }

  /** A turn that neither ends nor asks for tools adds nothing and costs one call. */
  lemma OtherStopCostsOneCall(backend: Tools.Backend, model: Model, decode: Decoder,
                              messages: seq<Message>, toolCalls: seq<ToolCall>, fuel: nat)
    requires backend.Aligned()
    requires fuel > 0 && model(messages, fuel).stopReason.OtherStop?
    ensures RunLoop(backend, model, decode, messages, toolCalls, fuel)
         == RunLoop(backend, model, decode, messages, toolCalls, fuel - 1)
  {
  }

  /** An ending turn is answered from that turn's text alone, with the calls made so far. */
  lemma EndTurnAnswersFromLastTurn(backend: Tools.Backend, model: Model, decode: Decoder,
                                   messages: seq<Message>, toolCalls: seq<ToolCall>, fuel: nat)
    requires backend.Aligned()
    requires fuel > 0 && model(messages, fuel).stopReason == EndTurn
    ensures var resp := RunLoop(backend, model, decode, messages, toolCalls, fuel);
      resp.rawResponse == FinalText(model(messages, fuel).blocks) && resp.toolCalls == toolCalls && resp.error.None?
  {
  }

  // ---------------------------------------------------------------------------
  // run_streaming
  // ---------------------------------------------------------------------------

  /**
   * The rest of `run_streaming`'s loop: the chunks it yields and the answer
   * it returns. Every delta is yielded and accumulated across turns; each
   * tool-use block is announced before it runs; the answer is built from all
   * the text accumulated so far.
   */
  function StreamLoop(backend: Tools.Backend, model: Model, decode: Decoder, messages: seq<Message>,
                      toolCalls: seq<ToolCall>, accumulated: string, fuel: nat): (out: (seq<string>, AgentResponse))
    requires backend.Aligned()
    decreases fuel
  {
    if fuel == 0 then ([], AgentResponse(accumulated, None, toolCalls, Some(StreamMaxIterationsError)))
    else
      var turn := model(messages, fuel);
      var acc := accumulated + Concat(turn.deltas);
      match turn.stopReason
      case EndTurn => (turn.deltas, ProcessFinalResponse(decode, acc, toolCalls))
      case ToolUseStop =>
        var rest := StreamLoop(backend, model, decode, AfterTools(backend, messages, turn),
                               toolCalls + ExecuteBlocks(backend, turn.blocks).0, acc, fuel - 1);
        (turn.deltas + Markers(ToolUses(turn.blocks)) + rest.0, rest.1)
      case OtherStop(_) =>
        var rest := StreamLoop(backend, model, decode, messages, toolCalls, acc, fuel - 1);
        (turn.deltas + rest.0, rest.1)
  }

  /** What `run_streaming` yields and returns. */
  function StreamSpec(backend: Tools.Backend, model: Model, decode: Decoder, userQuery: string): (seq<string>, AgentResponse)
    requires backend.Aligned()
  {
    var v := Guardrails.Validate(userQuery);
    Guardrails.ValidateAcceptsIff(userQuery);
    if !v.isValid then (["Error: " + v.errorMessage.value], AgentResponse([], None, [], v.errorMessage))
    else
      StreamLoop(backend, model, decode, Prompts.InitialMessages(v.sanitizedInput.value, true), [], [], Config.MaxIterations)
  }

  /** The event loop of one streamed turn: yield each delta and add it to the accumulated text. */
  method StreamDeltas(deltas: seq<string>, accumulated: string) returns (yielded: seq<string>, acc: string)
    ensures yielded == deltas && acc == accumulated + Concat(deltas)
  {
    yielded, acc := [], accumulated;
    var i := 0;
    while i < |deltas|
      invariant 0 <= i <= |deltas|
      invariant yielded == deltas[..i] && acc == accumulated + Concat(deltas[..i])
    {
      assert deltas[..i + 1][..i] == deltas[..i];
      yielded := yielded + [deltas[i]];
      acc := acc + deltas[i];
      i := i + 1;
    }
    assert deltas[..i] == deltas;
  }

  /** The tool loop of a streamed turn: announce, run and record each tool-use block in order. */
  method StreamTools(backend: Tools.Backend, blocks: seq<Block>)
    returns (markers: seq<string>, calls: seq<ToolCall>, results: seq<ToolResult>)
    requires backend.Aligned()
    ensures markers == Markers(ToolUses(blocks))
    ensures (calls, results) == ExecuteBlocks(backend, blocks)
  {
    markers, calls, results := [], [], [];
    var i := 0;
    while i < |blocks|
      invariant 0 <= i <= |blocks|
      invariant markers == Markers(ToolUses(blocks[..i]))
      invariant (calls, results) == ExecuteBlocks(backend, blocks[..i])
    {
      assert blocks[..i + 1][..i] == blocks[..i];
      var block := blocks[i];
      if block.ToolUse? {
        markers := markers + [CallingMarker(block.name)];
        var result := Tools.ExecuteTool(backend, block.name, block.input);
        calls := calls + [ToolCall(block.name, block.input, result)];
        results := results + [ToolResult(block.id, result)];
      }
      i := i + 1;
    }
    assert blocks[..i] == blocks;
  }

  /** One pass of `run_streaming`'s loop: stream a turn, then finish on an ending turn or announce and run its tools. */
  method StreamTurn(backend: Tools.Backend, model: Model, decode: Decoder, messages: seq<Message>,
                    toolCalls: seq<ToolCall>, accumulated: string, fuel: nat)
    returns (done: bool, yielded: seq<string>, resp: AgentResponse,
             messages': seq<Message>, toolCalls': seq<ToolCall>, accumulated': string)
    requires backend.Aligned() && fuel > 0
    ensures var whole := StreamLoop(backend, model, decode, messages, toolCalls, accumulated, fuel);
      done ==> yielded == whole.0 && resp == whole.1
    ensures var whole := StreamLoop(backend, model, decode, messages, toolCalls, accumulated, fuel);
      var rest := StreamLoop(backend, model, decode, messages', toolCalls', accumulated', fuel - 1);
      !done ==> yielded + rest.0 == whole.0 && rest.1 == whole.1
  {
    messages', toolCalls' := messages, toolCalls;
    resp := AgentResponse([], None, toolCalls, None);
    done := false;
    var turn := model(messages, fuel);
    yielded, accumulated' := StreamDeltas(turn.deltas, accumulated);
    if turn.stopReason == EndTurn {
      resp := ProcessFinalResponse(decode, accumulated', toolCalls);
      done := true;
      return;
    }
    if turn.stopReason == ToolUseStop {
      messages' := messages' + [Message(Assistant, AssistantBlocks(turn.blocks))];
      var markers, calls, results := StreamTools(backend, turn.blocks);
      yielded := yielded + markers;
      toolCalls' := toolCalls' + calls;
      messages' := messages' + [Message(User, ToolResults(results))];
      assert messages' == AfterTools(backend, messages, turn);
    }
  }

  /** The loop of `run_streaming` from its first call on. */
  method StreamFrom(backend: Tools.Backend, model: Model, decode: Decoder, start: seq<Message>)
    returns (chunks: seq<string>, resp: AgentResponse)
    requires backend.Aligned()
    ensures (chunks, resp) == StreamLoop(backend, model, decode, start, [], [], Config.MaxIterations)
  {
    var messages := start;
    var toolCalls: seq<ToolCall> := [];
    var accumulated: string := [];
    chunks := [];
    var i := 0;
    while i < Config.MaxIterations
      invariant 0 <= i <= Config.MaxIterations
      invariant var rest := StreamLoop(backend, model, decode, messages, toolCalls, accumulated, Config.MaxIterations - i);
        var whole := StreamLoop(backend, model, decode, start, [], [], Config.MaxIterations);
        chunks + rest.0 == whole.0 && rest.1 == whole.1
    {
      var done, yielded;
      done, yielded, resp, messages, toolCalls, accumulated :=
        StreamTurn(backend, model, decode, messages, toolCalls, accumulated, Config.MaxIterations - i);
      chunks := chunks + yielded;
      if done {
        return;
      }
      i := i + 1;
    }
    assert chunks + [] == chunks;
    resp := AgentResponse(accumulated, None, toolCalls, Some(StreamMaxIterationsError));
  }

  /** `PolicyAgent.run_streaming`: the chunks it yields, then the answer it returns. */
  method RunStreaming(backend: Tools.Backend, model: Model, decode: Decoder, userQuery: string)
    returns (chunks: seq<string>, resp: AgentResponse)
    requires backend.Aligned()
    ensures (chunks, resp) == StreamSpec(backend, model, decode, userQuery)
  {
    var validation := Guardrails.Validate(userQuery);
    Guardrails.ValidateAcceptsIff(userQuery);
    if !validation.isValid {
      chunks := ["Error: " + validation.errorMessage.value];
      resp := AgentResponse([], None, [], validation.errorMessage);
      return;
    }
    var messages := Prompts.BuildMessages(validation.sanitizedInput.value, true);
    chunks, resp := StreamFrom(backend, model, decode, messages);
  }

  // ---------------------------------------------------------------------------
  // Properties of run_streaming
  // ---------------------------------------------------------------------------

  /** Rejected input yields one "Error: ..." chunk and the same answer as `run`, without consulting the model. */
  lemma StreamRejectedInput(backend: Tools.Backend, model: Model, decode: Decoder, userQuery: string)
    requires backend.Aligned()
    requires !Guardrails.Validate(userQuery).isValid
    ensures Guardrails.Validate(userQuery).errorMessage.Some?
    ensures StreamSpec(backend, model, decode, userQuery).0 == ["Error: " + Guardrails.Validate(userQuery).errorMessage.value]
    ensures StreamSpec(backend, model, decode, userQuery).1 == RunSpec(backend, model, decode, userQuery)
  {
    Guardrails.ValidateAcceptsIff(userQuery);
  }

  /**
   * The streamed answer keeps every piece of text seen so far: its raw text
   * extends the text accumulated before, on success and on exhaustion
   * alike, and the only error it carries is the exhaustion message.
   */
  lemma {:induction false} StreamLoopOutcome(backend: Tools.Backend, model: Model, decode: Decoder,
                                             messages: seq<Message>, toolCalls: seq<ToolCall>,
                                             accumulated: string, fuel: nat)
    requires backend.Aligned()
    ensures var resp := StreamLoop(backend, model, decode, messages, toolCalls, accumulated, fuel).1;
      && accumulated <= resp.rawResponse
      && toolCalls <= resp.toolCalls
      && (resp.error.Some? ==> resp.error == Some(StreamMaxIterationsError) && resp.structured.None?)
    decreases fuel
  {
    if fuel > 0 {
      var turn := model(messages, fuel);
      var acc := accumulated + Concat(turn.deltas);
      match turn.stopReason
      case EndTurn =>
      case ToolUseStop =>
        var calls := ExecuteBlocks(backend, turn.blocks).0;
        StreamLoopOutcome(backend, model, decode, AfterTools(backend, messages, turn), toolCalls + calls, acc, fuel - 1);
      case OtherStop(_) =>
        StreamLoopOutcome(backend, model, decode, messages, toolCalls, acc, fuel - 1);
    }
  }

  /**
   * When a turn ends the conversation, the stream has yielded that turn's
   * deltas and finalises on all the text accumulated so far, where `run`
   * uses the last turn's text blocks alone.
   */
  lemma StreamEndTurnUsesAccumulatedText(backend: Tools.Backend, model: Model, decode: Decoder,
                                         messages: seq<Message>, toolCalls: seq<ToolCall>, accumulated: string, fuel: nat)
    requires backend.Aligned()
    requires fuel > 0 && model(messages, fuel).stopReason == EndTurn
    ensures var out := StreamLoop(backend, model, decode, messages, toolCalls, accumulated, fuel);
      out.0 == model(messages, fuel).deltas
      && out.1.rawResponse == accumulated + Concat(model(messages, fuel).deltas)
      && out.1.toolCalls == toolCalls && out.1.error.None?
  {
  }
}
