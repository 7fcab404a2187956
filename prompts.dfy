/**
 * Message construction and the response templates (prompts.py): the
 * few-shot conversation, the list `build_messages` returns, and the two
 * fixed error answers, which satisfy the output guardrail's rule.
 */
module Prompts {
  import opened Wrappers
  import opened Json
  import opened Messages
  import Guardrails

  /** `FEW_SHOT_EXAMPLES`: six question-and-answer pairs, a user turn first. */
  const FewShotExamples: seq<Message> := [
    Message(User, Exemplar(0)), Message(Assistant, Exemplar(1)),
    Message(User, Exemplar(2)), Message(Assistant, Exemplar(3)),
    Message(User, Exemplar(4)), Message(Assistant, Exemplar(5)),
    Message(User, Exemplar(6)), Message(Assistant, Exemplar(7)),
    Message(User, Exemplar(8)), Message(Assistant, Exemplar(9)),
    Message(User, Exemplar(10)), Message(Assistant, Exemplar(11))
  ]

  /** Turns alternate between the user and the assistant, starting with the user. */
  predicate Alternates(ms: seq<Message>) {
    forall i :: 0 <= i < |ms| ==> ms[i].role == (if i % 2 == 0 then User else Assistant)
  }

  /** The exemplars are twelve alternating turns, user first and assistant last. */
  lemma FewShotShape()
    ensures |FewShotExamples| == 12 && Alternates(FewShotExamples)
    ensures FewShotExamples[11].role == Assistant
  {
  }

  /** The list `build_messages` returns: the exemplars when asked for, then the user's query. */
  function InitialMessages(userQuery: string, includeExamples: bool): (ms: seq<Message>)
    ensures |ms| == if includeExamples then 13 else 1
    ensures ms[|ms| - 1] == Message(User, Text(userQuery))
    ensures includeExamples ==> ms[..12] == FewShotExamples
    ensures Alternates(ms)
  {
    FewShotShape();
    (if includeExamples then FewShotExamples else []) + [Message(User, Text(userQuery))]
  }

  /** `build_messages`: a fresh list, extended with the exemplars when asked, then the query appended. */
  method BuildMessages(userQuery: string, includeExamples: bool) returns (messages: seq<Message>)
    ensures messages == InitialMessages(userQuery, includeExamples)
  {
    messages := [];
    if includeExamples {
      messages := messages + FewShotExamples;
    }
    messages := messages + [Message(User, Text(userQuery))];
  }

  /** Without exemplars the conversation is the query alone. */
  lemma WithoutExamplesOnlyTheQuery(userQuery: string)
    ensures InitialMessages(userQuery, false) == [Message(User, Text(userQuery))]
  {
  }

  // ---------------------------------------------------------------------------
  // Error answer templates (`ERROR_RESPONSES`), as the JSON inside their fences
  // ---------------------------------------------------------------------------

  function Template(reason: string, policyReference: Value, confidence: Value, escalationReason: string): map<string, Value> {
    map[
      "approved" := Bool(false),
      "reason" := Str(reason),
      "policy_reference" := policyReference,
      "confidence" := confidence,
      "requires_escalation" := Bool(true),
      "escalation_reason" := Str(escalationReason)]
  }

  const EmployeeNotFoundTemplate: map<string, Value> := Template(
    "Could not verify employee information. Please provide a valid employee ID.",
    Str("N/A"), Num(0.0), "Unable to verify employee identity")

  const PolicyNotFoundTemplate: map<string, Value> := Template(
    "I could not find a clear policy covering this situation. Please consult with your manager or HR for guidance.",
    Str("N/A"), Num(0.0), "No matching policy found - human review required")

  /** The `low_confidence` template once its policy id and confidence are filled in. */
  function LowConfidenceTemplate(policyId: string, confidence: real): map<string, Value> {
    Template(
      "I found some relevant policies but I'm not confident they fully address your question. I recommend checking with your manager.",
      Str(policyId), Num(confidence), "Low confidence in policy match - human review recommended")
  }

  /** A template with a long enough reason parses into its decision exactly when its confidence is within bounds. */
  lemma TemplateParses(reason: string, policyReference: string, confidence: real, escalationReason: string)
    requires |reason| >= 10
    ensures Guardrails.ParseDecision(Template(reason, Str(policyReference), Num(confidence), escalationReason)) ==
      if 0.0 <= confidence <= 1.0
      then Some(Guardrails.Decision(false, reason, policyReference, confidence, true, Some(escalationReason)))
      else None
  {
    var f := Template(reason, Str(policyReference), Num(confidence), escalationReason);
    assert f["approved"] == Bool(false) && f["reason"] == Str(reason) && f["policy_reference"] == Str(policyReference);
    assert f["confidence"] == Num(confidence) && f["requires_escalation"] == Bool(true);
    assert f["escalation_reason"] == Str(escalationReason);
  }

  /**
   * Both fixed error answers pass the output guardrail: they decline, at
   * confidence 0, and ask for escalation, as the rule for confidence below
   * 0.5 demands.
   */
  lemma FixedErrorAnswersPassOutputRule()
    ensures var v := Guardrails.ValidateStructuredResponse(Parsed(Object(EmployeeNotFoundTemplate)));
      v.Accepted? && !v.decision.approved && v.decision.confidence == 0.0 && v.decision.requiresEscalation
    ensures var v := Guardrails.ValidateStructuredResponse(Parsed(Object(PolicyNotFoundTemplate)));
      v.Accepted? && !v.decision.approved && v.decision.confidence == 0.0 && v.decision.requiresEscalation
  {
    TemplateParses("Could not verify employee information. Please provide a valid employee ID.",
      "N/A", 0.0, "Unable to verify employee identity");
    TemplateParses("I could not find a clear policy covering this situation. Please consult with your manager or HR for guidance.",
      "N/A", 0.0, "No matching policy found - human review required");
  }

  /** The filled low-confidence answer passes for every confidence the schema allows, and only for those. */
  lemma LowConfidenceAnswerPassesIff(policyId: string, confidence: real)
    ensures Guardrails.ValidateStructuredResponse(Parsed(Object(LowConfidenceTemplate(policyId, confidence)))).Accepted?
            <==> 0.0 <= confidence <= 1.0
  {
    TemplateParses(
      "I found some relevant policies but I'm not confident they fully address your question. I recommend checking with your manager.",
      policyId, confidence, "Low confidence in policy match - human review recommended");
  }
}
