# Policy enforcer — a Dafny model of its core

The policy enforcer answers employees' questions about corporate travel,
expense and approval policy. A language model is given three tools over an
employee directory, a policy manual and a table of approval thresholds:

- `policy_get_employee_info`
- `policy_search_manual`
- `policy_check_approval_threshold`

Guardrails surround the model:

- Input validation rejects over-long or blank queries, prompt-injection
  phrases and encoded escapes, and sanitises what it accepts.
- Output validation accepts a structured decision only if it satisfies the
  decision schema and the rule that a decision under 0.5 confidence must ask
  for escalation. It also detects and redacts PII and decides escalation.

An evaluation harness runs a fixed table of twenty test cases through the
agent (or through a keyword-driven mock), grades each answer and
summarises the run.

This project models that core in Dafny and proves properties of the model.
There is one module per source file:

| module | source file | form |
|---|---|---|
| `Approval` | `mcp_server.py` | the approval ladder, the recommendation and the level bands |
| `Tools` | `mcp_server.py` and `agent.py` | the tool input schemas, the three handlers and `execute_tool`'s dispatch |
| `Guardrails` | `guardrails.py` | validation, output rule, escalation, PII |
| `Sanitizer` | `guardrails.py` | the input sanitiser |
| `Retrieval` | `embeddings.py` | classes `EmbeddingClient`, `PolicyIndex` and `IndexHolder` (the lazy global index) |
| `Agent` | `agent.py` | `run` and `run_streaming`, as loop methods proved against recursive specifications |
| `Prompts` | `prompts.py` | the exemplars, `build_messages` and the error templates |
| `Grader` | `evals/grader.py` | the rule-based grade, `grade` and `grade_batch` |
| `EvalRunner` | `evals/run_evals.py` | the mock agent, `run_single`, `run_all` and the verdict |
| `TestCases` | `evals/test_cases.py` | the case table and its lookups |

The helper modules are:

- `Wrappers`: the `Option` type.
- `Text`: Python's `split` and `strip`, ASCII lower-casing and substring search on `seq<char>`.
- `Config`: the constants of `config.py`.
- `Json`: decoded JSON values.
- `Messages`: the conversation the model sees.

What the environment supplies becomes a parameter:

- The language model is a function from the conversation so far and the number of calls
  the loop still allows to its next turn, so a conversation asked again can get another answer.
- `json.loads` is a decoder from text to a parsed or malformed document.
- The embedding service is a function from texts to vectors.
- The query's similarity to each stored vector is a function on vectors.
- The e-mail regex's matches are a list of strings.
- The employee directory and the rule set are values.

Each loop of the source is a method loop with invariants, proved equal to a
recursive function. The properties the source promises are proved about
those functions.

Grader scores are kept in integer tenths, so `0.4 + 0.2 + …` is exact, and
the score is the tenths divided by ten. For every combination of the weights
(0.4, 0.2 or 0.1, 0.2 or 0.1, 0.2) the binary floating-point sum compares
`>= 0.7` exactly when the tenths reach 7, so the pass verdict agrees. The
lower bound of partial confidence credit is not exact in binary floating
point: `Grader.PartialFloor` holds the double value of
`min_confidence - 0.2` for the minimums the case table uses.

## Model

| member | source | states |
|---|---|---|
| `Approval.Lookup` | `mcp_server.py:30-38` | the record found for an id carries that id, and one is found exactly when some record has the id (the later record wins, as in the dict built from the list) |
| `Approval.Keys` | `mcp_server.py:313-317` | the listed valid ids are exactly the directory's ids, each once |
| `Approval.LookupFindsExactlyKeys` | `mcp_server.py:314-316` | an employee is found exactly when the id is among the listed valid ids |
| `Approval.BandIndex` | `mcp_server.py:48-61` | the band index is bounded by the number of band tops |
| `Approval.LevelToCategoryByTable` | `mcp_server.py:48-61` | `_level_to_category` is the table lookup of the band the level falls in |
| `Approval.LevelToCategory` | `mcp_server.py:48-61` | the category is one of the six band names |
| `Approval.BandIndexMonotone` | `mcp_server.py:48-61` | a higher level never falls in a lower band |
| `Approval.InsertByLimit` | `mcp_server.py:455` | inserting keeps the list ordered by limit and adds exactly the new threshold |
| `Approval.SortKeepsOrderOfEqualLimits` | `mcp_server.py:455` | sorting is stable: the thresholds sharing a limit keep their listed order |
| `Approval.SortByLimit` | `mcp_server.py:455` | `sorted(..., key=amount_limit)` is ordered and a permutation of the thresholds |
| `Approval.FirstBelow` | `mcp_server.py:457-464` | the chosen threshold is one the amount is strictly below; none is chosen exactly when every limit is at most the amount |
| `Approval.FirstBelowIsSmallest` | `mcp_server.py:455-464` | on sorted thresholds the first one above the amount has the smallest such limit |
| `Approval.LadderPicksSmallestLimitAbove` | `mcp_server.py:455-464` | whatever the listed order, the ladder picks the smallest limit above the amount, and falls through exactly when no limit is above it |
| `Approval.ApproverLevel` | `mcp_server.py:460-463` | an offset rule gives the requester's level plus the offset; a rule with only an absolute level gives that level; a rule with neither field gives 99 |
| `Approval.RequirementsFor` | `mcp_server.py:467-468` | self-approval is allowed only when the general rules say so explicitly |
| `Approval.WalkLadder` | `mcp_server.py:446-464` | the loop ends with the first threshold above the amount (its role and approver level), or with the default rule's role and level |
| `Approval.FirstBelowStep` | `mcp_server.py:457-458` | one loop step: stop at a threshold above the amount, or move on |
| `Approval.CheckApprovalThreshold` | `mcp_server.py:410-496` | the handler's answer is the unknown-employee error with the valid ids, or the report of the looked-up employee, their band, the requirements and the recommendation |
| `Approval.DefaultRuleWhenNoThresholdMatches` | `mcp_server.py:446-448` | an amount at or above every limit gets the default rule, CFO at level 13 when the rules name none |
| `Approval.SelfApprovalIgnoresAmountAndLevel` | `mcp_server.py:467-468` | the self-approval flag and reason depend on the rule set alone; without general rules self-approval is prohibited |
| `Approval.ExpenseTypeNeverChangesRequirements` | `mcp_server.py:439-468` | the expense type affects only the recommendation, never who must approve |
| `Approval.UnknownEmployeeListsValidIds` | `mcp_server.py:430-436` | an unknown id yields the not-found error and the list of valid ids |
| `Approval.SortedLastIsHighest` | `mcp_server.py:167-170` | the last sorted threshold holds the highest limit |
| `Approval.AboveHighestMeansDefaultRule` | `mcp_server.py:163-174` | the recommendation names the default approver exactly when the amount exceeds every limit, and then the ladder has fallen to the default rule too |
| `Approval.SampleLadder` | `mcp_server.py:455-464` | on a rule set listed out of order: 100 goes to the direct manager one level up, 500 (equal to a limit) and 1500 to the department head, 15000 to the built-in CFO at level 13 |
| `Approval.RecommendationLadder` | `mcp_server.py:163-174` | the standard process exactly when there are no thresholds; otherwise the default approver's recommendation, for the asked amount, exactly when every limit is below the amount |
| `Approval.RecommendationByExpenseType` | `mcp_server.py:186-194` | when some limit is not below the amount: over 10000 is high-level; otherwise the travel portal exactly for "travel", "flight" and "hotel", approved vendors exactly for "software" and "equipment", receipts for every other type, compared in lower case |
| `Approval.Recommend` | `mcp_server.py:157-194` | the standard process exactly without thresholds; the default-approver and high-level texts carry the asked amount, high-level only above 10000; the expense-type texts only at or below 10000 |
| `Approval.ApprovalCheck` | `mcp_server.py:430-494` | the unknown-employee error exactly when no record has the id, listing every valid id; otherwise a report on the recorded employee, a known band name, the asked amount and type, and the ladder's requirements |
| `Tools.Extra` | `mcp_server.py:206-280` | the rejected extra keys are exactly the input keys the schema does not declare |
| `Tools.StrField` | `mcp_server.py:206-280` | a string field is accepted exactly when present, a string, and its stripped length is within the bounds; the value kept is stripped |
| `Tools.GetEmployeeId` | `mcp_server.py:215-221` | an accepted employee id has the shape `emp` plus three digits |
| `Tools.CheckApprovalId` | `mcp_server.py:264-268` | an accepted employee id has the shape `emp` plus three digits |
| `Tools.EmployeeIdLengthBoundsAreImplied` | `mcp_server.py:215-221` | the pattern makes the declared length bounds redundant: both schemas accept the same ids |
| `Tools.Format` | `mcp_server.py:222-225` | a missing format means JSON; markdown is chosen exactly when the input says "markdown" |
| `Tools.MaxResults` | `mcp_server.py:243-248` | an accepted count lies in 1..10, and a missing one is 3 |
| `Tools.Amount` | `mcp_server.py:269-274` | an amount is accepted exactly when it is a number greater than 0 and at most 1000000 |
| `Tools.ParseGetEmployee` | `mcp_server.py:206-225` | the input is accepted exactly when no field fails; a rejection names the failing fields |
| `Tools.ParseSearchPolicy` | `mcp_server.py:228-252` | the input is accepted exactly when no field fails; a rejection names the failing fields |
| `Tools.ParseCheckApproval` | `mcp_server.py:255-280` | the input is accepted exactly when no field fails; a rejection names the failing fields |
| `Tools.SearchInputAcceptedIff` | `mcp_server.py:228-252` | the search input is valid exactly when there are no unknown keys, a 3..500 character query, a 1..10 count and a known format |
| `Tools.CheckApprovalInputAcceptedIff` | `mcp_server.py:255-280` | the approval input is valid exactly when there are no unknown keys, a well-shaped id, an amount in (0, 1000000] and a 1..100 character expense type |
| `Tools.GetEmployeeInputAcceptedIff` | `mcp_server.py:206-225` | the employee input is valid exactly when there are no unknown keys, a well-shaped id and a known format |
| `Tools.GetEmployeeInfo` | `mcp_server.py:297-332` | a found employee is the one recorded under the requested id, with its level band and the requested format |
| `Tools.EmployeeMissingIffUnknownId` | `mcp_server.py:313-317` | the not-found message appears exactly for ids not in the directory, and lists the valid ids |
| `Tools.SearchPolicyManual` | `mcp_server.py:362-375` | at most `max_results` and at most three results, for the given query, with the 0.75 threshold |
| `Tools.TruncationKeepsConfidence` | `mcp_server.py:362-365` | cutting the results to `max_results` never hides the only confident one: the flag holds exactly when a kept result is confident |
| `Tools.CheckApprovalThreshold` | `mcp_server.py:430-436` | the approval answer is an unknown-employee error exactly for ids not in the directory |
| `Tools.ExecuteTool` | `agent.py:42-68` | an unknown tool is reported by name exactly when the name is none of the three tools |
| `Tools.DispatchFollowsValidation` | `agent.py:49-68` | each tool fails exactly when its input fails validation, and otherwise answers with that tool's kind of result |
| `Tools.SearchAnswerBounded` | `agent.py:56-58` | a dispatched search returns at most three results and at most the requested count |
| `Guardrails.AnyPhraseInIff` | `guardrails.py:149-154` | the pattern loop reports a hit exactly when some phrase occurs in the text |
| `Guardrails.LowerIdempotent` | `guardrails.py:85-88` | lower-casing twice is lower-casing once |
| `Guardrails.InjectionIgnoresCase` | `guardrails.py:85-88` | injection detection ignores ASCII case: the text and its ASCII lower-case form are judged alike |
| `Guardrails.HexRunEnd` | `guardrails.py:94` | the scan ends after a maximal run of hex digits |
| `Guardrails.Validate` | `guardrails.py:97-147` | accepted input has sanitised text and no error message, is within 2000 characters and free of injection phrases and escapes; medium risk exactly when too long |
| `Guardrails.ValidateAcceptsIff` | `guardrails.py:97-147` | input is accepted exactly when it is at most 2000 characters, not blank, free of injection phrases and of escapes; accepted input carries its sanitised form and low risk |
| `Guardrails.RejectionRiskLevels` | `guardrails.py:107-138` | a rejection is medium risk exactly when too long, low exactly when blank, high exactly for injection or escapes |
| `Guardrails.ShortTextHasNoInjection` | `config.py:53-64` | text shorter than nine characters never matches a phrase |
| `Guardrails.NulInputIsAcceptedButSanitizesToEmpty` | `guardrails.py:115-147` | a lone NUL is not blank, so it is accepted, yet it sanitises to the empty string |
| `Guardrails.ParseDecision` | `guardrails.py:32-65` | a decision that passes the schema has a reason of at least 10 characters and a confidence in [0, 1] |
| `Guardrails.ValidateStructuredResponse` | `guardrails.py:205-234` | invalid JSON exactly for undecodable text; an exception exactly for decoded JSON that is not an object; an accepted decision satisfies the schema and escalates under 0.5 confidence |
| `Guardrails.AcceptedDecisionsObeyRule` | `guardrails.py:215-230` | an accepted decision passes the schema and has escalation whenever confidence is below 0.5 |
| `Guardrails.WellFormedAcceptedIff` | `guardrails.py:220-230` | a schema-valid decision is accepted exactly when its confidence is at least 0.5 or it asks for escalation |
| `Guardrails.MissingEscalationFlagIsFalse` | `guardrails.py:32-65` | a missing escalation flag counts as false, so a low-confidence decision without it is rejected |
| `Guardrails.ExtraKeysIgnored` | `guardrails.py:32-65` | keys outside the schema do not change the verdict |
| `Guardrails.LowConfidenceExample` | `guardrails.py:223-228` | a 0.4-confidence decision is accepted exactly when it asks for escalation |
| `Guardrails.ShouldEscalate` | `guardrails.py:274-305` | escalation is reported exactly when a reason is given; a high-value reason carries the given amount, which exceeds 5000 |
| `Guardrails.EscalationIff` | `guardrails.py:274-305` | escalation happens exactly when retrieval is below 0.6, decision confidence is below 0.7 or a given amount exceeds 5000; the reason names the first condition met |
| `Guardrails.EscalationBoundaries` | `guardrails.py:294-302` | the thresholds themselves (0.6, 0.7, 5000) do not escalate |
| `Guardrails.CheckForPii` | `guardrails.py:237-261` | the kinds reported are exactly those detected (SSN, card, external e-mail), in that order, each once |
| `Guardrails.CheckOutputSafety` | `guardrails.py:344-348` | the output is safe exactly when no SSN, no card number and no external e-mail is found |
| `Guardrails.CardMatchLengthIff` | `guardrails.py:202` | a card match at a position has one of the separator-determined lengths, and there is none exactly when no separator choice matches |
| `Guardrails.RedactPii` | `guardrails.py:263-267` | the loop produces the redaction (SSNs replaced, then card numbers), and what it returns holds no SSN and no card number |
| `Guardrails.RedactionRemovesSsnAndCards` | `guardrails.py:263-267` | no SSN and no card number is left in redacted text, whatever the input |
| `Guardrails.SubSsnKeepsGap` | `guardrails.py:265` | characters where no SSN match starts are copied unchanged |
| `Guardrails.SubCardKeepsGap` | `guardrails.py:266` | characters where no card match starts are copied unchanged |
| `Guardrails.SubSsnUnchanged` | `guardrails.py:265` | SSN substitution leaves text with no SSN unchanged |
| `Guardrails.SubCardUnchanged` | `guardrails.py:266` | card substitution leaves text with no card number unchanged |
| `Guardrails.RedactionKeepsCleanText` | `guardrails.py:263-267` | redaction leaves text without SSNs and card numbers unchanged |
| `Sanitizer.Sanitize` | `guardrails.py:163-182` | sanitised text holds no control character, and neither starts nor ends with whitespace |
| `Sanitizer.SanitizeIsNotIdempotent` | `guardrails.py:170-182` | a control character between two spaces leaves a double space behind, which a second pass collapses |
| `Sanitizer.SanitizeTwiceDiffers` | `guardrails.py:170-182` | "a \x01 b" sanitises to "a  b", which sanitises to "a b" |
| `Sanitizer.LoneNulSanitizesToEmpty` | `guardrails.py:174` | a lone NUL sanitises to the empty string |
| `Sanitizer.StripKeepsInnerSpaces` | `guardrails.py:182` | stripping keeps text whose ends are not whitespace |
| `Retrieval.Loaded` | `embeddings.py:161-167` | one chunk per policy, in order, carrying the policy's fields |
| `Retrieval.Contents` | `embeddings.py:176` | one text per chunk, its content |
| `Retrieval.Scores` | `embeddings.py:196` | one score per stored vector, its similarity to the query |
| `Retrieval.InsertRanked` | `embeddings.py:199` | inserting a position keeps the ranking non-increasing, adds exactly that position and keeps positions distinct |
| `Retrieval.RankedPrefix` | `embeddings.py:199` | the positions below n, each once, ranked by score |
| `Retrieval.RankedIndices` | `embeddings.py:199` | `argsort(...)[::-1]` lists every position once, highest score first |
| `Retrieval.SliceLen` | `embeddings.py:199` | `[:top_k]` keeps `min(top_k, n)` items for a non-negative `top_k` |
| `Retrieval.TopIndices` | `embeddings.py:199` | the selection has `min(top_k, n)` distinct real positions, highest score first |
| `Retrieval.SearchResults` | `embeddings.py:199-206` | `min(top_k, n)` results, each a stored chunk, scores non-increasing |
| `Retrieval.LeftOutScoresNoHigher` | `embeddings.py:199` | every position left out scores no higher than every position reported |
| `Retrieval.GateIsFirstResult` | `embeddings.py:226-227` | some result is confident exactly when the first is |
| `Retrieval.SearchResultsAreIndexed` | `embeddings.py:201-206` | each result is the chunk at a selected position with that position's score, none twice |
| `Retrieval.GateOpenMeansFirstHitConfident` | `embeddings.py:226-227` | the search is confident exactly when its first hit clears the threshold |
| `Retrieval.PolicyHits` | `embeddings.py:246-267` | at most three hits, and the flag holds exactly when some hit is confident |
| `Retrieval.EmbeddingClient.constructor` | `embeddings.py:66-76` | mock embeddings are used exactly when there is no API key or the provider library is missing |
| `Retrieval.PolicyIndex.constructor` | `embeddings.py:146-152` | a new index holds one chunk per policy, each carrying its own embedding row |
| `Retrieval.PolicyIndex.LoadPolicies` | `embeddings.py:154-167` | the chunks gain one chunk per policy at the end; the matrix is unchanged |
| `Retrieval.PolicyIndex.BuildIndex` | `embeddings.py:169-183` | the matrix is the embedding of the chunk contents and each chunk carries its row |
| `Retrieval.PolicyIndex.Search` | `embeddings.py:185-208` | the loop returns the chunks at the top positions with their scores |
| `Retrieval.PolicyIndex.SearchWithThreshold` | `embeddings.py:210-228` | the results of `search`, confident exactly when the first result is |
| `Retrieval.IndexHolder.constructor` | `embeddings.py:236` | no index exists before the first request |
| `Retrieval.IndexHolder.GetPolicyIndex` | `embeddings.py:238-243` | the index is built once, on first request, and the same index is returned afterwards |
| `Retrieval.IndexHolder.SearchPolicies` | `embeddings.py:246-267` | the hits and flag of the shared index's search |
| `Agent.FinalTextAppend` | `agent.py:142-145` | the final text of two block lists is the concatenation of their texts |
| `Agent.ToolBlocksAddNoText` | `agent.py:143-145` | tool-use blocks contribute no text |
| `Agent.ToolUses` | `agent.py:159-160` | only tool-use blocks of the turn are executed |
| `Agent.ExecuteBlocks` | `agent.py:158-177` | one call and one result per tool-use block, in order, each result under the block's id with the tool's output |
| `Agent.Markers` | `agent.py:255-257` | one "Calling tool" marker per tool-use block, naming it |
| `Agent.OpenFenceStartsWithClose` | `agent.py:296` | every opening fence begins with a closing fence, so the closing fence is searched for after the opening one |
| `Agent.OpenFencesDoNotOverlap` | `agent.py:296` | two opening fences are at least seven characters apart |
| `Agent.NoCloseAfterFirstOpen` | `agent.py:296-297` | when no closing fence follows the first opening fence, no fenced block exists anywhere |
| `Agent.ExtractJsonBlock` | `agent.py:296-299` | a block is found exactly when an opening fence is followed by a closing fence; it is the stripped text between the first such pair |
| `Agent.ProcessFinalResponse` | `agent.py:285-315` | the raw text and the calls are always kept, with no error; a decision is attached exactly when a fenced block decodes to a decision the output rule accepts |
| `Agent.StructuredAnswersObeyOutputRule` | `agent.py:298-306` | an attached decision has a 10+ character reason, confidence in [0, 1] and escalation when below 0.5 |
| `Agent.CollectText` | `agent.py:142-145` | the loop gathers the turn's text |
| `Agent.RunTools` | `agent.py:157-177` | the loop executes the turn's tool-use blocks, recording calls and results in order |
| `Agent.RunTurn` | `agent.py:130-183` | one iteration either answers as the loop specification does, or continues it with the extended conversation and one less iteration |
| `Agent.Run` | `agent.py:104-190` | `run` answers as its specification: rejected input, a final answer, or the iteration cap |
| `Agent.RejectedInputSkipsModel` | `agent.py:115-122` | rejected input is answered with its error and no call, whatever the model |
| `Agent.RunLoopOutcome` | `agent.py:130-190` | the loop ends with a final answer (no error), or with the iteration-cap error and no text; the audit trail only grows |
| `Agent.Requests` | `agent.py:130-137` | the loop asks the model at most once per allowed iteration |
| `Agent.RunLoopSeesOnlyRequests` | `agent.py:130-183` | two models that agree on the conversations the loop sends give the same answer and the same requests |
| `Agent.RequestsAppendOnly` | `agent.py:130-183` | at most `fuel` model calls; each request extends the starting conversation and the request before it |
| `Agent.AtMostTenModelCalls` | `agent.py:125-137` | `run` calls the model at most ten times, always on the exemplars and the sanitised query plus later turns |
| `Agent.ToolUseTurnAppends` | `agent.py:150-183` | a tool-use turn appends the assistant turn and one user message of results, one per tool-use block, matched by id |
| `Agent.OtherStopCostsOneCall` | `agent.py:130-150` | a turn that neither ends nor uses tools changes nothing but costs one iteration |
| `Agent.EndTurnAnswersFromLastTurn` | `agent.py:140-147` | an ending turn is answered from that turn's text, with the calls made so far |
| `Agent.StreamDeltas` | `agent.py:230-238` | every delta is yielded, in order, and appended to the accumulated text |
| `Agent.StreamTools` | `agent.py:254-271` | one marker per tool-use block, and the same calls and results as `run` |
| `Agent.StreamTurn` | `agent.py:218-276` | one streaming iteration yields its chunks and answers or continues as the loop specification does |
| `Agent.StreamFrom` | `agent.py:213-283` | the streaming loop yields the specification's chunks and returns its answer |
| `Agent.RunStreaming` | `agent.py:192-283` | `run_streaming` yields and returns as its specification |
| `Agent.StreamRejectedInput` | `agent.py:202-211` | rejected input yields one "Error: ..." chunk and returns what `run` returns |
| `Agent.StreamLoopOutcome` | `agent.py:218-283` | the streamed text and the audit trail only grow; an error is only the iteration cap, and then no decision |
| `Agent.StreamEndTurnUsesAccumulatedText` | `agent.py:233-245` | an ending turn yields its deltas and is judged on all the text streamed so far |
| `Prompts.FewShotShape` | `prompts.py:66-205` | twelve exemplar messages alternating user and assistant, ending with the assistant |
| `Prompts.InitialMessages` | `prompts.py:252-273` | the exemplars (when asked for) followed by the query as one user message; roles alternate |
| `Prompts.BuildMessages` | `prompts.py:252-273` | the method builds exactly those messages |
| `Prompts.WithoutExamplesOnlyTheQuery` | `prompts.py:265-273` | without exemplars the conversation is the query alone |
| `Prompts.TemplateParses` | `prompts.py:212-245` | a template with a 10+ character reason decodes to a decision that refuses and asks for escalation |
| `Prompts.FixedErrorAnswersPassOutputRule` | `prompts.py:213-233` | the employee-not-found and policy-not-found answers pass the output rule: refused, confidence 0, escalated |
| `Prompts.LowConfidenceAnswerPassesIff` | `prompts.py:235-244` | the low-confidence answer passes exactly when its filled-in confidence lies in [0, 1] |
| `Grader.PolicyMark` | `evals/grader.py:219-230` | no policy mark when the answer's reference is false in Python or the case expects "N/A"; full marks exactly for a string equal to the expected reference; partial exactly when the reference's `str()` contains it otherwise |
| `Grader.PartialFloor` | `evals/grader.py:237` | the double `min_confidence - 0.2` lies below the minimum and within 1e-15 of the exact difference |
| `Grader.ConfidenceMark` | `evals/grader.py:232-243` | full marks at or above the minimum, partial down to the double `min_confidence - 0.2`, none further below, no mark when absent |
| `Grader.SixTenthsMissesTheFloatFloor` | `evals/grader.py:232-252` | against a minimum of 0.8, a confidence of 0.6 earns nothing, so right approval and reference with the wrong escalation scores 0.6 and fails |
| `Grader.HalfEarnsPartialAgainstSevenTenths` | `evals/grader.py:237` | against a minimum of 0.7, a confidence of 0.5 earns partial credit |
| `Grader.ListReferenceEarnsPartial` | `evals/grader.py:224` | a list reference whose text contains the expected one earns partial credit |
| `Grader.Credit` | `evals/grader.py:219-243` | two tenths for a correct mark, one for partial, none otherwise |
| `Grader.Tenths` | `evals/grader.py:209-252` | the score is at most ten tenths; ten exactly when every criterion is fully right; a pass needs the approval right |
| `Grader.Graded` | `evals/grader.py:209-260` | the score lies in [0, 1] and the result passes exactly when it reaches 0.7 |
| `Grader.RuleBasedGrade` | `evals/grader.py:191-260` | the method computes the rule-based grade |
| `Grader.PassingNeedsTheApproval` | `evals/grader.py:212-252` | no pass without the right approval; a missing approval caps the score at 0.6 |
| `Grader.NotApplicableCapsTheScore` | `evals/grader.py:220-230` | a case expecting "N/A" never scores its policy reference, so its score is at most 0.8 |
| `Grader.FullMatchScoresOne` | `evals/grader.py:209-252` | an answer matching every expectation scores 1.0 and passes |
| `Grader.PerfectScoreMeansFullMatch` | `evals/grader.py:209-252` | a score of 1.0 means every expectation was met |
| `Grader.DemonstrationPasses` | `evals/grader.py:303-317` | the demonstration case passes with 1.0 |
| `Grader.Grade` | `evals/grader.py:92-189` | without a client, or when the model's grading fails, the grade is rule-based; otherwise it is the model's |
| `Grader.CallFor` | `evals/grader.py:281-293` | each batch row is graded under its id and answers; escalation is expected only when the row says true; a missing response is empty |
| `Grader.GradeBatch` | `evals/grader.py:267-296` | one grade per row, in order, each the grade of that row |
| `Grader.BatchWithoutClientIsRuleBased` | `evals/grader.py:84-90` | without a client every batch grade is the rule-based grade of its row |
| `EvalRunner.Head` | `evals/run_evals.py:108` | `query[:50]` is a prefix of at most 50 characters |
| `EvalRunner.MockRun` | `evals/run_evals.py:72-112` | the mock's reason quotes the query head; confidence is 0.85 or 0.95; it escalates only for an approved first-class travel case |
| `EvalRunner.MockLadder` | `evals/run_evals.py:82-104` | 0.95 exactly for the self-approval case; "unknown" exactly when no keyword occurs; business class without first class is never approved |
| `EvalRunner.MockIgnoresEmployee` | `evals/run_evals.py:72-112` | the mock's answer does not depend on the employee id |
| `EvalRunner.MockResponse` | `evals/run_evals.py:106-112` | the mock answer has exactly its five keys |
| `EvalRunner.JsonSource` | `evals/run_evals.py:229-234` | the fenced block when there is one, otherwise the whole text |
| `EvalRunner.ParseResponse` | `evals/run_evals.py:223-236` | the decoded value, or an empty object when decoding fails |
| `EvalRunner.StructuredResponse` | `evals/run_evals.py:167-173` | the structured decision as an object with its four graded keys |
| `EvalRunner.Respond` | `evals/run_evals.py:155-175` | the mock answers the case's query and id; the live agent is asked with the employee prefix and its raw text is kept |
| `EvalRunner.AsBool` | `evals/grader.py:213` | a parsed value counts as a boolean exactly when Python's `==` makes it equal to one |
| `EvalRunner.AsPolicyRef` | `evals/grader.py:220-224` | only a string reference can match exactly; every value keeps its Python truth value, and a non-string is compared through its `str()` |
| `EvalRunner.AsConfidence` | `evals/grader.py:233-237` | a string, list or object confidence cannot be compared with a number and raises |
| `EvalRunner.RunSingle` | `evals/run_evals.py:151-221` | a result has a grade exactly when it has no error; an error result carries a message and nothing parsed |
| `EvalRunner.RunSingleErrorIff` | `evals/run_evals.py:155-221` | a run fails exactly when the response is not an object or its confidence cannot be compared |
| `EvalRunner.MockRunsNeverFail` | `evals/run_evals.py:157-159` | a mock run never fails and always parses a numeric confidence |
| `EvalRunner.StructuredAnswersNeverFail` | `evals/run_evals.py:167-173` | a live answer with a structured decision never fails |
| `EvalRunner.Selected` | `evals/run_evals.py:249-251` | no (or an empty) category list selects all cases; otherwise exactly the cases in the listed categories |
| `EvalRunner.RunEach` | `evals/run_evals.py:265-270` | one result per case |
| `EvalRunner.RunEachExtends` | `evals/run_evals.py:269-270` | each iteration appends the next case's result |
| `EvalRunner.RunEachIsPointwise` | `evals/run_evals.py:265-270` | the i-th result is the run of the i-th case |
| `EvalRunner.Step` | `evals/run_evals.py:273-306` | one result goes to exactly one counter, adds a failure entry unless it passed, and changes only its own category's entry, whose total grows by one |
| `EvalRunner.Bump` | `evals/run_evals.py:274-294` | a category's total grows by one; passed plus failed grows by one unless the result errored |
| `EvalRunner.TallyOf` | `evals/run_evals.py:253-306` | passed, failed and errors add up to the number of results; one failure entry per error or failure |
| `EvalRunner.TallyOfAppend` | `evals/run_evals.py:265-306` | tallying one more result is one more loop step |
| `EvalRunner.CountIn` | `evals/run_evals.py:274-277` | a category count is at most the number of results |
| `EvalRunner.CategoryStatsCountCases` | `evals/run_evals.py:273-294` | a category appears exactly when some result belongs to it; its total is its case count, passed plus failed at most the total |
| `EvalRunner.RunSingleIsWellGraded` | `evals/run_evals.py:186-196` | every grade is in [0, 1] and passes exactly at 0.7 |
| `EvalRunner.TotalScoreBounds` | `evals/run_evals.py:287-296` | the total score lies between 0 and the number of results |
| `EvalRunner.RunAllSpec` | `evals/run_evals.py:238-324` | every selected case is counted once as passed, failed or errored, with one failure entry per failure or error |
| `EvalRunner.RunAll` | `evals/run_evals.py:238-324` | the method's report is the report of running the selected cases |
| `EvalRunner.RunCases` | `evals/run_evals.py:253-324` | the report of the tally of running the given cases |
| `EvalRunner.RunLoop` | `evals/run_evals.py:265-306` | the loop's results are the runs of the cases and its counters are their tally |
| `EvalRunner.Record` | `evals/run_evals.py:273-306` | one loop iteration's counter updates are one tally step |
| `EvalRunner.RatioIsFraction` | `evals/run_evals.py:308-310` | a rate lies in [0, 1]; it is 0 with no tests |
| `EvalRunner.ReportIsConsistent` | `evals/run_evals.py:308-324` | passed, failed and errors add up to the total; one failure entry per error or failure; pass rate and average score lie in [0, 1], 0 with no tests |
| `EvalRunner.RunAllReportIsConsistent` | `evals/run_evals.py:238-324` | every report of `run_all` is consistent in that sense |
| `EvalRunner.VerdictOf` | `evals/run_evals.py:352-360` | pass at 90% or more, marginal from 70% to below 90%, fail below 70% |
| `EvalRunner.VerdictIsMonotone` | `evals/run_evals.py:352-360` | a higher pass rate never gets a worse verdict |
| `EvalRunner.VerdictExtremes` | `evals/run_evals.py:308-360` | a run where every test passes is a pass; a run where none passes is a fail |
| `TestCases.CategoryValue` | `evals/test_cases.py:16-22` | every category has a non-empty value |
| `TestCases.CategoryValueInjective` | `evals/test_cases.py:16-22` | distinct categories have distinct values |
| `TestCases.AllTestCases` | `evals/test_cases.py:297-299` | twenty cases, each well-formed (id prefixed by its category, confidence in [0, 1]), ids distinct |
| `TestCases.TableIsWellFormed` | `evals/test_cases.py:43-285` | every row's id starts with its category's prefix and its minimum confidence lies in [0, 1] |
| `TestCases.PositionsMatchRows` | `evals/test_cases.py:43-285` | each row's id names its own position |
| `TestCases.TableIdsAreDistinct` | `evals/test_cases.py:43-285` | no two rows share an id |
| `TestCases.Where` | `evals/test_cases.py:294` | the filter keeps exactly the cases whose category is selected |
| `TestCases.WhereAppend` | `evals/test_cases.py:294` | filtering distributes over concatenation |
| `TestCases.WhereAllIsIdentity` | `evals/test_cases.py:294` | filtering that keeps every category keeps every case in order |
| `TestCases.ByCategory` | `evals/test_cases.py:292-294` | exactly the table's cases of that category |
| `TestCases.FirstWithId` | `evals/test_cases.py:302-307` | a found case is in the list and has the id; none is found exactly when no case has it |
| `TestCases.FindById` | `evals/test_cases.py:302-307` | the loop returns the first case with the id, or none |
| `TestCases.DistinctIdsFindThemselves` | `evals/test_cases.py:302-307` | with distinct ids, looking up a case's id finds that case |
| `TestCases.EveryCaseIsFoundById` | `evals/test_cases.py:302-307` | every row of the table is found by its own id |

## Left out

- `get_system_prompt` and the wording of the system prompt and exemplars: the exemplars are placeholders with their roles. Only their number and alternation are modelled, because the text is prose with no behaviour.
- The language-model client, streaming transport and event objects: the model's turn (stop reason, blocks, text deltas) is a parameter. Transport errors and exceptions raised by the client are not modelled.
- The language-model path of `EvalGrader.grade` (prompt, API call, parsing its JSON): a `Judge` parameter that may fail stands for it.
- `json.loads`, `json.dumps` and file I/O (`_load_employees`, `_load_rules`, `_load_policies` reading `data/*.json`, `save_report`): the decoded values are inputs. The rule set and directory are values, not files.
- Embedding numerics: the hash-seeded mock embedding, vector normalisation and the dot product. Similarity is a parameter, and the provider call is the `embedDocuments` parameter.
- `np.argsort`'s order among equal scores: the model fixes one admissible order (the later position first). The lemmas state only what holds for every order.
- asyncio and FastMCP tool registration: the handlers are modelled as functions called by `execute_tool`.
- Markdown, CLI and report rendering, including `${amount:,.2f}` formatting. The markdown bodies of the handlers are left out; `ReasonText` takes the amount formatter as a parameter.
- Timing: `duration_ms`, `avg_duration_ms` and the report timestamp.
- Unicode regex semantics: the SSN and card patterns are matched over ASCII digits with `\b` as an ASCII word boundary. The e-mail pattern is abstracted to the list of its matches.
- `config.validate_config`, the rate-limit constants and the chunk-size constants: none is read by the core.
- Exceptions raised inside a handler other than validation failures, such as a missing data file.
- The freshness of the list `build_messages` returns: sequences are values, so no aliasing arises.
- Tools.Amount: follows the enforced `gt=0`, not the declared tool schema's `minimum: 0`, because the enforced check is what rejects an amount of 0. It accepts only JSON numbers: the schema library's lax coercions (a numeric string, a boolean) are not modelled.
- Tools.MaxResults: accepts only JSON integers. The schema library's lax coercions (a numeric string, an integral float) are not modelled.
- Tools.GetEmployeeId: the pattern's `\d` is read as an ASCII digit. Python's regex also accepts other Unicode decimal digits, which the model rejects.
- Unicode case folding in the injection check: `re.IGNORECASE` also matches letters such as "ı", "İ" and "ſ" against ASCII ones; the model lower-cases ASCII only, so such spellings are not flagged.
- Guardrails.ParseDecision: accepts only JSON booleans, numbers and strings of the declared types. The schema library's lax coercions (a numeric string for a float, and the like) are not modelled.
- Grader.CallFor: a key present with a null value is modelled like a missing one, but the source passes None on, and `actual_response[:1500]` raises on None.
- Grader.ConfidenceMark: minimums other than 0.0, 0.7, 0.8 and 0.9 use the exact difference; confidences are exact decimals, not doubles.
- Grader.Graded: the score is the tenths divided by ten, not the double sum, which can differ in the last bit (0.4 + 0.2 is 0.6000000000000001).
- Cancellation and concurrency: the lazy global index is modelled as one holder object with no concurrent callers.
