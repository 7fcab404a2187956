/**
 * The guardrails around the model (guardrails.py): the input-rejection ladder
 * and the sanitiser, the post-parse check of a structured decision, the
 * escalation ladder, and the PII listing and redaction of model output.
 *
 * The regular expressions are literal phrases or fixed shapes and are written
 * out as recognisers over ASCII; the e-mail pattern's `findall` result is a
 * parameter.
 */
module Guardrails {
  import opened Wrappers
  import opened Text
  import opened Json
  import Config
  import opened Sanitizer

  // ---------------------------------------------------------------------------
  // Input guardrails
  // ---------------------------------------------------------------------------

  datatype Risk = Low | Medium | High

  /** `ValidationResult`. */
  datatype ValidationResult = ValidationResult(
    isValid: bool,
    errorMessage: Option<string>,
    sanitizedInput: Option<string>,
    riskLevel: Risk)

  const TooLongMessage: string := "Input exceeds maximum length of 2000 characters"
  const EmptyMessage: string := "Input cannot be empty"
  const HarmfulMessage: string := "Input contains potentially harmful content"
  const EncodingMessage: string := "Input contains suspicious encoding"

  /** Some phrase of `pats` occurs in `text`, tried in list order. */
  predicate AnyPhraseIn(text: string, pats: seq<string>) {
    pats != [] && (Contains(text, pats[0]) || AnyPhraseIn(text, pats[1..]))
  }

  lemma {:induction false} AnyPhraseInIff(text: string, pats: seq<string>)
    ensures AnyPhraseIn(text, pats) <==> exists k :: 0 <= k < |pats| && Contains(text, pats[k])
  {
    if pats != [] {
      AnyPhraseInIff(text, pats[1..]);
      assert forall k :: 0 < k < |pats| ==> pats[k] == pats[1..][k - 1];
    }
  }

  /** `_check_injection_patterns`: a configured phrase occurs, ignoring (ASCII) case. */
  predicate HasInjection(text: string) {
    AnyPhraseIn(Lower(text), Config.InjectionPatterns)
  }

  lemma LowerIdempotent(s: string)
    ensures Lower(Lower(s)) == Lower(s)
  {
  }

  /** The injection check does not see case: a text and its lower-case form are flagged alike. */
  lemma InjectionIgnoresCase(text: string)
    ensures HasInjection(text) <==> HasInjection(Lower(text))
  {
    LowerIdempotent(text);
  }

  /** Backslash, `x`, two hex digits at position `i` (`\\x[0-9a-fA-F]{2}`). */
  predicate HexEscapeAt(s: string, i: nat) {
    i + 4 <= |s| && s[i] == '\\' && s[i + 1] == 'x' && IsHexDigit(s[i + 2]) && IsHexDigit(s[i + 3])
  }

  /** Percent sign and two hex digits at position `i` (`%[0-9a-fA-F]{2}`). */
  predicate PercentEscapeAt(s: string, i: nat) {
    i + 3 <= |s| && s[i] == '%' && IsHexDigit(s[i + 1]) && IsHexDigit(s[i + 2])
  }

  /** The end of the run of hex digits that starts at `j`. */
  function HexRunEnd(s: string, j: nat): (e: nat)
    requires j <= |s|
    decreases |s| - j
    ensures j <= e <= |s|
    ensures forall k :: j <= k < e ==> IsHexDigit(s[k])
    ensures e < |s| ==> !IsHexDigit(s[e])
  {
    if j < |s| && IsHexDigit(s[j]) then HexRunEnd(s, j + 1) else j
  }

  /**
   * A character reference at position `i` (`&#x?[0-9a-fA-F]+;`): `&#`, an
   * optional `x`, at least one hex digit and a semicolon right after the run.
   * The `x` is not a hex digit, so when it is present the run starts after it.
   */
  predicate EntityAt(s: string, i: nat) {
    && i + 2 <= |s| && s[i] == '&' && s[i + 1] == '#'
    && var j := if i + 2 < |s| && s[i + 2] == 'x' then i + 3 else i + 2;
       var e := HexRunEnd(s, j);
       j < e < |s| && s[e] == ';'
  }

  /** `_check_encoding_attacks`: one of the three escape shapes occurs somewhere. */
  predicate HasEncodedEscape(s: string) {
    exists i :: 0 <= i < |s| && (HexEscapeAt(s, i) || PercentEscapeAt(s, i) || EntityAt(s, i))
  }

  /** `InputGuardrails.validate`: the length check, then empty, injection and encoding, then sanitise. */
  function Validate(input: string): (r: ValidationResult)
    ensures r.isValid <==> r.sanitizedInput.Some?
    ensures r.isValid <==> r.errorMessage.None?
    ensures r.isValid ==> |input| <= Config.MaxInputLength && !HasInjection(input) && !HasEncodedEscape(input)
    ensures r.isValid ==> r.sanitizedInput.value == Sanitize(input)
    ensures r.riskLevel == Medium <==> |input| > Config.MaxInputLength
  {
    if |input| > Config.MaxInputLength then
      ValidationResult(false, Some(TooLongMessage), None, Medium)
    else if Strip(input) == [] then
      ValidationResult(false, Some(EmptyMessage), None, Low)
    else if HasInjection(input) then
      ValidationResult(false, Some(HarmfulMessage), None, High)
    else if HasEncodedEscape(input) then
      ValidationResult(false, Some(EncodingMessage), None, High)
    else
      ValidationResult(true, None, Some(Sanitize(input)), Low)
  }

  /**
   * Input is accepted exactly when it is short enough, not blank, free of
   * injection phrases and free of escapes; accepted input carries its
   * sanitised form and low risk, rejected input carries a message and no text.
   */
  lemma ValidateAcceptsIff(input: string)
    ensures Validate(input).isValid <==>
      |input| <= 2000 && (exists i :: 0 <= i < |input| && !IsSpace(input[i]))
      && !HasInjection(input) && !HasEncodedEscape(input)
    ensures Validate(input).isValid ==>
      Validate(input).sanitizedInput == Some(Sanitize(input)) && Validate(input).riskLevel == Low
      && Validate(input).errorMessage.None?
    ensures !Validate(input).isValid ==> Validate(input).sanitizedInput.None? && Validate(input).errorMessage.Some?
  {
    StripEmptyIff(input);
  }

  /**
   * The rejection risk tells the checks apart: medium means too long (checked
   * before anything else, so an over-long injection attempt is still medium),
   * low means blank, high means an injection phrase or an escape.
   */
  lemma RejectionRiskLevels(input: string)
    requires !Validate(input).isValid
    ensures Validate(input).riskLevel == Medium <==> |input| > 2000
    ensures Validate(input).riskLevel == Low <==> |input| <= 2000 && forall i :: 0 <= i < |input| ==> IsSpace(input[i])
    ensures Validate(input).riskLevel == High <==>
      |input| <= 2000 && Strip(input) != [] && (HasInjection(input) || HasEncodedEscape(input))
  {
    StripEmptyIff(input);
  }

  /** Text shorter than the shortest configured phrase (nine characters) can never be flagged as an injection. */
  lemma ShortTextHasNoInjection(text: string)
    requires |text| < 9
    ensures !HasInjection(text)
  {
    var lowered := Lower(text);
    var pats := Config.InjectionPatterns;
    AnyPhraseInIff(lowered, pats);
    forall k | 0 <= k < |pats| ensures !Contains(lowered, pats[k]) {
      ContainsIff(lowered, pats[k]);
    }
  }

  /**
   * A lone NUL character passes every check (it is not whitespace) and is
   * accepted, yet its sanitised form is empty: acceptance does not promise
   * non-empty sanitised text.
   */
  lemma NulInputIsAcceptedButSanitizesToEmpty(s: string)
    requires |s| == 1 && s[0] == '\0'
    ensures Validate(s).isValid
    ensures Validate(s).sanitizedInput == Some([])
  {
    assert !IsSpace(s[0]);
    ShortTextHasNoInjection(s);
    assert !HasEncodedEscape(s);
    StripEmptyIff(s);
    LoneNulSanitizesToEmpty(s);
  }

  // ---------------------------------------------------------------------------
  // Output guardrails: the structured decision
  // ---------------------------------------------------------------------------

  /** `PolicyResponse`. */
  datatype Decision = Decision(
    approved: bool,
    reason: string,
    policyReference: string,
    confidence: real,
    requiresEscalation: bool,
    escalationReason: Option<string>)

  datatype OutputError =
    | InvalidJson        // "Invalid JSON: ..."
    | SchemaInvalid      // "Schema validation failed: ..."
    | LowConfidenceUnflagged

  /** The outcome of `validate_structured_response`; `Raised` is the uncaught error when the JSON is not an object. */
  datatype OutputVerdict =
    | Accepted(decision: Decision)
    | Rejected(error: OutputError)
    | Raised

  const LowConfidenceMessage: string := "Low confidence decisions should be flagged for escalation"

  /** The fixed part of each rejection message. */
  function ErrorText(e: OutputError): string {
    match e
    case InvalidJson => "Invalid JSON: "
    case SchemaInvalid => "Schema validation failed: "
    case LowConfidenceUnflagged => LowConfidenceMessage
  }

  /** The six fields of the schema; any other key is ignored. */
  const DecisionKeys: set<string> :=
    {"approved", "reason", "policy_reference", "confidence", "requires_escalation", "escalation_reason"}

  /** `PolicyResponse(**data)`: field presence, types and bounds. */
  function ParseDecision(fields: map<string, Value>): (d: Option<Decision>)
    ensures d.Some? ==> |d.value.reason| >= 10 && 0.0 <= d.value.confidence <= 1.0
  {
    if && "approved" in fields && fields["approved"].Bool?
       && "reason" in fields && fields["reason"].Str? && |fields["reason"].s| >= 10
       && "policy_reference" in fields && fields["policy_reference"].Str?
       && "confidence" in fields && IsNumber(fields["confidence"])
       && 0.0 <= NumberValue(fields["confidence"]) <= 1.0
       && ("requires_escalation" !in fields || fields["requires_escalation"].Bool?)
       && ("escalation_reason" !in fields || fields["escalation_reason"].Null? || fields["escalation_reason"].Str?)
    then
      Some(Decision(
        fields["approved"].b,
        fields["reason"].s,
        fields["policy_reference"].s,
        NumberValue(fields["confidence"]),
        if "requires_escalation" in fields then fields["requires_escalation"].b else false,
        if "escalation_reason" in fields && fields["escalation_reason"].Str? then Some(fields["escalation_reason"].s) else None))
    else None
  }

  /** `validate_structured_response` on the outcome of `json.loads`. */
  function ValidateStructuredResponse(doc: Doc): (r: OutputVerdict)
    ensures r == Rejected(InvalidJson) <==> doc.Malformed?
    ensures r.Raised? <==> doc.Parsed? && !doc.value.Object?
    ensures r.Accepted? ==>
      |r.decision.reason| >= 10 && 0.0 <= r.decision.confidence <= 1.0
      && (r.decision.confidence < 0.5 ==> r.decision.requiresEscalation)
  {
    match doc
    case Malformed => Rejected(InvalidJson)
    case Parsed(v) =>
      if !v.Object? then Raised
      else match ParseDecision(v.fields)
        case None => Rejected(SchemaInvalid)
        case Some(d) =>
          if d.confidence < 0.5 && !d.requiresEscalation then Rejected(LowConfidenceUnflagged)
          else Accepted(d)
  }

  /** Every accepted decision obeys the schema bounds and the escalation rule. */
  lemma AcceptedDecisionsObeyRule(doc: Doc)
    requires ValidateStructuredResponse(doc).Accepted?
    ensures var d := ValidateStructuredResponse(doc).decision;
      |d.reason| >= 10 && 0.0 <= d.confidence <= 1.0 && (d.confidence < 0.5 ==> d.requiresEscalation)
  {
  }

  /** A well-formed decision object is accepted exactly when it is confident enough or flagged for escalation. */
  lemma WellFormedAcceptedIff(fields: map<string, Value>)
    requires ParseDecision(fields).Some?
    ensures var d := ParseDecision(fields).value;
      ValidateStructuredResponse(Parsed(Object(fields))).Accepted? <==> (d.confidence >= 0.5 || d.requiresEscalation)
    ensures ValidateStructuredResponse(Parsed(Object(fields))).Rejected? ==>
      ValidateStructuredResponse(Parsed(Object(fields))).error == LowConfidenceUnflagged
  {
  }

  /** An omitted `requires_escalation` reads as false, so a low-confidence decision without it is rejected. */
  lemma MissingEscalationFlagIsFalse(fields: map<string, Value>)
    requires ParseDecision(fields).Some? && "requires_escalation" !in fields
    requires ParseDecision(fields).value.confidence < 0.5
    ensures ValidateStructuredResponse(Parsed(Object(fields))) == Rejected(LowConfidenceUnflagged)
  {
  }

  /** Keys outside the schema never change the verdict. */
  lemma ExtraKeysIgnored(fields: map<string, Value>, key: string, v: Value)
    requires key !in DecisionKeys
    ensures ValidateStructuredResponse(Parsed(Object(fields[key := v]))) == ValidateStructuredResponse(Parsed(Object(fields)))
  {
    var f2 := fields[key := v];
    assert forall k :: k in DecisionKeys ==> (k in f2 <==> k in fields) && (k in fields ==> f2[k] == fields[k]);
    assert ParseDecision(f2) == ParseDecision(fields);
  }

  /** A decision at confidence 0.4 is rejected unless it asks for escalation, and accepted when it does. */
  lemma LowConfidenceExample(escalate: bool)
    ensures var fields := map[
        "approved" := Bool(false),
        "reason" := Str("Needs a manager's review first"),
        "policy_reference" := Str("travel-001"),
        "confidence" := Num(0.4),
        "requires_escalation" := Bool(escalate)];
      ValidateStructuredResponse(Parsed(Object(fields))).Accepted? <==> escalate
  {
    var fields := map[
        "approved" := Bool(false),
        "reason" := Str("Needs a manager's review first"),
        "policy_reference" := Str("travel-001"),
        "confidence" := Num(0.4),
        "requires_escalation" := Bool(escalate)];
    assert |fields["reason"].s| >= 10;
  }

  // ---------------------------------------------------------------------------
  // Escalation
  // ---------------------------------------------------------------------------

  datatype EscalationReason =
    | NoEscalation                 // ""
    | LowRetrievalConfidence       // "Policy retrieval confidence below threshold"
    | LowDecisionConfidence        // "AI decision confidence below threshold"
    | HighValue(amount: real)      // "High-value transaction ($...) requires human review"

  function ReasonText(r: EscalationReason, formatAmount: real -> string): string {
    match r
    case NoEscalation => ""
    case LowRetrievalConfidence => "Policy retrieval confidence below threshold"
    case LowDecisionConfidence => "AI decision confidence below threshold"
    case HighValue(a) => "High-value transaction ($" + formatAmount(a) + ") requires human review"
  }

  /** `should_escalate`: retrieval below 0.6, then decision below 0.7, then a (truthy) amount above 5000. */
  function ShouldEscalate(retrievalConfidence: real, responseConfidence: real, amount: Option<real>): (r: (bool, EscalationReason))
    ensures r.0 <==> r.1 != NoEscalation
    ensures r.1.HighValue? ==> amount == Some(r.1.amount) && r.1.amount > 5000.0
  {
    if retrievalConfidence < 0.6 then (true, LowRetrievalConfidence)
    else if responseConfidence < 0.7 then (true, LowDecisionConfidence)
    else if amount.Some? && amount.value != 0.0 && amount.value > 5000.0 then (true, HighValue(amount.value))
    else (false, NoEscalation)
  }

  /**
   * Escalation happens exactly when one of the three conditions holds, the
   * flag and the reason agree, and the earliest condition names the reason.
   */
  lemma EscalationIff(retrieval: real, response: real, amount: Option<real>)
    ensures var (esc, reason) := ShouldEscalate(retrieval, response, amount);
      && (esc <==> retrieval < 0.6 || response < 0.7 || (amount.Some? && amount.value > 5000.0))
      && (esc <==> reason != NoEscalation)
      && (retrieval < 0.6 ==> reason == LowRetrievalConfidence)
      && (retrieval >= 0.6 && response < 0.7 ==> reason == LowDecisionConfidence)
      && (retrieval >= 0.6 && response >= 0.7 && amount.Some? && amount.value > 5000.0 ==>
            reason == HighValue(amount.value))
      && (reason.HighValue? ==> retrieval >= 0.6 && response >= 0.7 && amount == Some(reason.amount))
  {
  }

  /** The thresholds themselves do not escalate. */
  lemma EscalationBoundaries()
    ensures ShouldEscalate(0.6, 0.7, Some(5000.0)) == (false, NoEscalation)
    ensures ShouldEscalate(0.6, 0.7, None) == (false, NoEscalation)
  {
  }

  // ---------------------------------------------------------------------------
  // PII
  // ---------------------------------------------------------------------------

  datatype PiiKind = Ssn | CreditCard | ExternalEmail

  function PiiLabel(k: PiiKind): string {
    match k
    case Ssn => "SSN"
    case CreditCard => "Credit Card"
    case ExternalEmail => "External Email"
  }

  /** Position of a category in the fixed listing order. */
  function PiiRank(k: PiiKind): nat {
    match k
    case Ssn => 0
    case CreditCard => 1
    case ExternalEmail => 2
  }

  /** `\b` before a match that starts with a digit. */
  predicate BoundaryBefore(s: string, i: nat)
    requires i <= |s|
  {
    i == 0 || !IsWordChar(s[i - 1])
  }

  /** `\b` after a match that ends with a digit. */
  predicate BoundaryAfter(s: string, e: nat)
    requires e <= |s|
  {
    e == |s| || !IsWordChar(s[e])
  }

  /** `\d{n}` at position `i`, for the run lengths the patterns use (at most four), spelled out. */
  predicate DigitsAt(s: string, i: nat, n: nat)
    requires n <= 4
  {
    && i + n <= |s|
    && (n < 1 || IsDigit(s[i])) && (n < 2 || IsDigit(s[i + 1]))
    && (n < 3 || IsDigit(s[i + 2])) && (n < 4 || IsDigit(s[i + 3]))
  }

  /** `\b\d{3}-\d{2}-\d{4}\b` at position `i` (always 11 characters). */
  predicate SsnAt(s: string, i: nat) {
    && DigitsAt(s, i, 3) && i + 11 <= |s| && s[i + 3] == '-'
    && DigitsAt(s, i + 4, 2) && s[i + 6] == '-' && DigitsAt(s, i + 7, 4)
    && BoundaryBefore(s, i) && BoundaryAfter(s, i + 11)
  }

  predicate HasSsn(s: string) {
    exists i :: 0 <= i < |s| && SsnAt(s, i)
  }

  predicate IsCardSeparator(c: char) {
    c == '-' || c == ' '
  }

  function Bit(b: bool): nat {
    if b then 1 else 0
  }

  /** The length of a card match with the given separators present. */
  function CardLength(b1: bool, b2: bool, b3: bool): nat {
    16 + Bit(b1) + Bit(b2) + Bit(b3)
  }

  /** `\b\d{4}[- ]?\d{4}[- ]?\d{4}[- ]?\d{4}\b` at position `i`, with separator `k` present iff `bk`. */
  predicate CardWith(s: string, i: nat, b1: bool, b2: bool, b3: bool) {
    var g2 := i + 4 + Bit(b1);
    var g3 := g2 + 4 + Bit(b2);
    var g4 := g3 + 4 + Bit(b3);
    && g4 + 4 <= |s|
    && DigitsAt(s, i, 4) && (b1 ==> IsCardSeparator(s[i + 4]))
    && DigitsAt(s, g2, 4) && (b2 ==> IsCardSeparator(s[g2 + 4]))
    && DigitsAt(s, g3, 4) && (b3 ==> IsCardSeparator(s[g3 + 4]))
    && DigitsAt(s, g4, 4)
    && BoundaryBefore(s, i) && BoundaryAfter(s, g4 + 4)
  }

  predicate HasCard(s: string) {
    exists i, b1, b2, b3 :: 0 <= i < |s| && CardWith(s, i, b1, b2, b3)
  }

  /** Some e-mail address the pattern found is outside `@company.com`. */
  predicate HasExternalEmail(emails: seq<string>) {
    exists k :: 0 <= k < |emails| && !EndsWith(emails[k], "@company.com")
  }

  /** Whether a category is present in the text (e-mail addresses as the pattern found them). */
  predicate Detected(k: PiiKind, text: string, emails: seq<string>) {
    match k
    case Ssn => HasSsn(text)
    case CreditCard => HasCard(text)
    case ExternalEmail => HasExternalEmail(emails)
  }

  /**
   * `check_for_pii`: a category is listed exactly when it is detected, and the
   * list keeps the fixed order SSN, Credit Card, External Email with no repeats.
   */
  method CheckForPii(text: string, emails: seq<string>) returns (found: seq<PiiKind>)
    ensures forall k :: k in found <==> Detected(k, text, emails)
    ensures forall i, j :: 0 <= i < j < |found| ==> PiiRank(found[i]) < PiiRank(found[j])
  {
    found := [];
    if HasSsn(text) {
      found := found + [Ssn];
    }
    if HasCard(text) {
      found := found + [CreditCard];
    }
    var external := seq(|emails|, k requires 0 <= k < |emails| => !EndsWith(emails[k], "@company.com"));
    assert (exists k :: 0 <= k < |emails| && external[k]) <==> HasExternalEmail(emails) by {
      assert forall k :: 0 <= k < |emails| ==> external[k] == !EndsWith(emails[k], "@company.com");
    }
    if exists k :: 0 <= k < |emails| && external[k] {
      found := found + [ExternalEmail];
    }
    forall k ensures k in found <==> Detected(k, text, emails) {
      match k
      case Ssn =>
      case CreditCard =>
      case ExternalEmail =>
    }
  }

  /** `check_output_safety`: safe exactly when no category is detected. */
  method CheckOutputSafety(text: string, emails: seq<string>) returns (isSafe: bool, found: seq<PiiKind>)
    ensures isSafe <==> !HasSsn(text) && !HasCard(text) && !HasExternalEmail(emails)
    ensures forall k :: k in found <==> Detected(k, text, emails)
  {
    found := CheckForPii(text, emails);
    isSafe := |found| == 0;
    if |found| > 0 {
      assert found[0] in found;
      assert Detected(found[0], text, emails);
    }
    assert Detected(Ssn, text, emails) ==> Ssn in found;
    assert Detected(CreditCard, text, emails) ==> CreditCard in found;
    assert Detected(ExternalEmail, text, emails) ==> ExternalEmail in found;
  }

  // ---------------------------------------------------------------------------
  // Redaction (re.sub: leftmost matches, scanning on after each replacement)
  // ---------------------------------------------------------------------------

  const SsnMark: string := "[SSN REDACTED]"
  const CardMark: string := "[CARD REDACTED]"

  /** `_ssn_pattern.sub` applied from position `i` on. */
  function SubSsnFrom(s: string, i: nat): string
    requires i <= |s|
    decreases |s| - i
  {
    if i == |s| then []
    else if SsnAt(s, i) then SsnMark + SubSsnFrom(s, i + 11)
    else [s[i]] + SubSsnFrom(s, i + 1)
  }

  /**
   * The length of the card match the regex engine reports at `i`: the optional
   * separators are greedy, so the combinations are tried with each separator
   * present before absent.
   */
  function CardMatchLength(s: string, i: nat): Option<nat> {
    if CardWith(s, i, true, true, true) then Some(CardLength(true, true, true))
    else if CardWith(s, i, true, true, false) then Some(CardLength(true, true, false))
    else if CardWith(s, i, true, false, true) then Some(CardLength(true, false, true))
    else if CardWith(s, i, true, false, false) then Some(CardLength(true, false, false))
    else if CardWith(s, i, false, true, true) then Some(CardLength(false, true, true))
    else if CardWith(s, i, false, true, false) then Some(CardLength(false, true, false))
    else if CardWith(s, i, false, false, true) then Some(CardLength(false, false, true))
    else if CardWith(s, i, false, false, false) then Some(CardLength(false, false, false))
    else None
  }

  /**
   * What the regex engine reports: a length exactly when some separator
   * choice matches, and then the length of a matching choice, within the text.
   */
  lemma CardMatchLengthIff(s: string, i: nat)
    ensures CardMatchLength(s, i).Some? ==>
      exists b1, b2, b3 :: CardWith(s, i, b1, b2, b3) && CardMatchLength(s, i).value == CardLength(b1, b2, b3)
    ensures CardMatchLength(s, i).None? <==> forall b1, b2, b3 :: !CardWith(s, i, b1, b2, b3)
    ensures CardMatchLength(s, i).Some? ==> i + CardMatchLength(s, i).value <= |s|
  {
  }

  /** `_credit_card_pattern.sub` applied from position `i` on. */
  function SubCardFrom(s: string, i: nat): string
    requires i <= |s|
    decreases |s| - i
  {
    if i == |s| then []
    else match CardMatchLength(s, i)
      case Some(len) => CardMark + SubCardFrom(s, i + len)
      case None => [s[i]] + SubCardFrom(s, i + 1)
  }

  /** SSNs first, then card numbers. */
  function Redacted(text: string): string {
    SubCardFrom(SubSsnFrom(text, 0), 0)
  }

  /** `redact_pii`: the text with both substitutions applied, in which neither detector finds anything. */
  method RedactPii(text: string) returns (r: string)
    ensures r == Redacted(text)
    ensures !HasSsn(r) && !HasCard(r)
  {
    r := text;
    r := SubSsnFrom(r, 0);
    r := SubCardFrom(r, 0);
    RedactionRemovesSsnAndCards(text);
  }

  lemma {:induction false} SubSsnUnchanged(s: string, i: nat)
    requires i <= |s|
    requires forall j :: i <= j < |s| ==> !SsnAt(s, j)
    ensures SubSsnFrom(s, i) == s[i..]
    decreases |s| - i
  {
    if i < |s| {
      SubSsnUnchanged(s, i + 1);
      assert s[i..] == [s[i]] + s[i + 1..];
    }
  }

  lemma {:induction false} SubCardUnchanged(s: string, i: nat)
    requires i <= |s|
    requires forall j, b1, b2, b3 :: i <= j < |s| ==> !CardWith(s, j, b1, b2, b3)
    ensures SubCardFrom(s, i) == s[i..]
    decreases |s| - i
  {
    if i < |s| {
      CardMatchLengthIff(s, i);
      SubCardUnchanged(s, i + 1);
      assert s[i..] == [s[i]] + s[i + 1..];
    }
  }

  /** Text the detectors find nothing in comes back from redaction unchanged. */
  lemma RedactionKeepsCleanText(text: string)
    requires !HasSsn(text) && !HasCard(text)
    ensures Redacted(text) == text
  {
    SubSsnUnchanged(text, 0);
    assert SubSsnFrom(text, 0) == text;
    SubCardUnchanged(text, 0);
  }

  // Why redaction leaves nothing for the detectors to find. A match in the
  // output cannot use a character of a mark (the marks hold no digit and no
  // separator), nor start right after a mark or end right before one (a match
  // in the input is followed and preceded by a non-word character), so it
  // would be a match of the input at a position the scan copied.

  lemma MarksHoldNoDigits()
    ensures forall k :: 0 <= k < |SsnMark| ==> !IsDigit(SsnMark[k])
    ensures forall k :: 0 <= k < |CardMark| ==> !IsDigit(CardMark[k])
    ensures |SsnMark| == 14 && |CardMark| == 15 && SsnMark[0] == '[' && CardMark[0] == '['
  {
  }

  /** An SSN-shaped window holds digits and hyphens only. */
  lemma SsnWindowHasNoBracket(s: string, q: nat)
    requires SsnAt(s, q)
    ensures forall k :: q <= k < q + 11 ==> s[k] != '['
  {
    forall k | q <= k < q + 11 ensures s[k] != '[' {
      if k < q + 3 || q + 4 <= k < q + 6 || q + 7 <= k {
        assert IsDigit(s[k]);
      }
    }
  }

  /** A card-shaped window holds digits and separators only. */
  lemma CardWindowHasNoBracket(s: string, q: nat, b1: bool, b2: bool, b3: bool)
    requires CardWith(s, q, b1, b2, b3)
    ensures q + CardLength(b1, b2, b3) <= |s|
    ensures forall k :: q <= k < q + CardLength(b1, b2, b3) ==> s[k] != '['
    ensures IsDigit(s[q + CardLength(b1, b2, b3) - 1])
  {
    var g2 := q + 4 + Bit(b1);
    var g3 := g2 + 4 + Bit(b2);
    var g4 := g3 + 4 + Bit(b3);
    forall k | q <= k < q + CardLength(b1, b2, b3) ensures s[k] != '[' {
      if k < q + 4 {
        assert IsDigit(s[k]);
      } else if k < g2 {
        assert IsCardSeparator(s[k]);
      } else if k < g2 + 4 {
        assert IsDigit(s[k]);
      } else if k < g3 {
        assert IsCardSeparator(s[k]);
      } else if k < g3 + 4 {
        assert IsDigit(s[k]);
      } else if k < g4 {
        assert IsCardSeparator(s[k]);
      } else {
        assert IsDigit(s[k]);
      }
    }
  }

  /** A card the regex engine reports starts with a digit after a `\b`. */
  lemma CardMatchStart(s: string, j: nat)
    ensures CardMatchLength(s, j).Some? ==> j < |s| && IsDigit(s[j]) && BoundaryBefore(s, j)
  {
    if CardMatchLength(s, j).Some? {
      CardMatchLengthIff(s, j);
      var b1, b2, b3 :| CardWith(s, j, b1, b2, b3);
    }
  }

  /** A match found after a prefix is a match of the rest (with a weaker boundary test at its start). */
  lemma SsnShift(x: string, t: string, q: nat)
    ensures SsnAt(x + t, |x| + q) ==> SsnAt(t, q)
  {
    var y := x + t;
    assert forall k :: 0 <= k < |t| ==> t[k] == y[|x| + k];
  }

  lemma CardShift(x: string, t: string, q: nat, b1: bool, b2: bool, b3: bool)
    ensures CardWith(x + t, |x| + q, b1, b2, b3) ==> CardWith(t, q, b1, b2, b3)
  {
    var y := x + t;
    assert forall k :: 0 <= k < |t| ==> t[k] == y[|x| + k];
  }

  /** The first character of an SSN substitution: a mark's bracket at a match, else the input's. */
  lemma SubSsnHead(s: string, i: nat)
    requires i < |s|
    ensures |SubSsnFrom(s, i)| > 0
    ensures SubSsnFrom(s, i)[0] == if SsnAt(s, i) then '[' else s[i]
  {
    MarksHoldNoDigits();
    if SsnAt(s, i) {
      assert SubSsnFrom(s, i) == SsnMark + SubSsnFrom(s, i + 11);
    }
  }

  lemma SubCardHead(s: string, i: nat)
    requires i < |s|
    ensures |SubCardFrom(s, i)| > 0
    ensures SubCardFrom(s, i)[0] == if CardMatchLength(s, i).Some? then '[' else s[i]
  {
    MarksHoldNoDigits();
    if CardMatchLength(s, i).Some? {
      assert SubCardFrom(s, i) == CardMark + SubCardFrom(s, i + CardMatchLength(s, i).value);
    }
  }

  /** One copied character in front of a copied stretch is a longer copied stretch. */
  lemma ConsCopied(s: string, i: nat, n: nat, out: string, rest: string, tail: string)
    requires i + n <= |s| && 0 < n
    requires out == [s[i]] + rest
    requires rest == s[i + 1..i + n] + tail
    ensures out == s[i..i + n] + tail
  {
    assert s[i..i + n] == [s[i]] + s[i + 1..i + n];
  }

  /** Where no SSN starts, the SSN substitution copies the input. */
  lemma {:induction false} SubSsnKeepsGap(s: string, i: nat, n: nat)
    requires i + n <= |s|
    requires forall j :: i <= j < i + n ==> !SsnAt(s, j)
    ensures SubSsnFrom(s, i) == s[i..i + n] + SubSsnFrom(s, i + n)
    decreases n
  {
    if n > 0 {
      assert SubSsnFrom(s, i) == [s[i]] + SubSsnFrom(s, i + 1);
      SubSsnKeepsGap(s, i + 1, n - 1);
      ConsCopied(s, i, n, SubSsnFrom(s, i), SubSsnFrom(s, i + 1), SubSsnFrom(s, i + n));
    }
  }

  /** Where no card starts, the card substitution copies one input character. */
  lemma SubCardNoMatchStep(s: string, i: nat)
    requires i < |s|
    requires forall b1, b2, b3 :: !CardWith(s, i, b1, b2, b3)
    ensures SubCardFrom(s, i) == [s[i]] + SubCardFrom(s, i + 1)
  {
    CardMatchLengthIff(s, i);
  }

  /** Where no card starts, the card substitution copies the input. */
  lemma {:induction false} SubCardKeepsGap(s: string, i: nat, n: nat)
    requires i + n <= |s|
    requires forall j, b1, b2, b3 :: i <= j < i + n ==> !CardWith(s, j, b1, b2, b3)
    ensures SubCardFrom(s, i) == s[i..i + n] + SubCardFrom(s, i + n)
    decreases n
  {
    if n > 0 {
      SubCardNoMatchStep(s, i);
      SubCardKeepsGap(s, i + 1, n - 1);
      ConsCopied(s, i, n, SubCardFrom(s, i), SubCardFrom(s, i + 1), SubCardFrom(s, i + n));
    }
  }

  /** Where the SSN substitution's output does not open a mark, it copies one input character. */
  lemma SubSsnCopyStep(s: string, i: nat)
    requires i < |s|
    ensures SubSsnFrom(s, i)[0] != '[' ==> SubSsnFrom(s, i) == [s[i]] + SubSsnFrom(s, i + 1)
  {
    SubSsnHead(s, i);
  }

  lemma SubCardCopyStep(s: string, i: nat)
    requires i < |s|
    ensures SubCardFrom(s, i)[0] != '[' ==> SubCardFrom(s, i) == [s[i]] + SubCardFrom(s, i + 1)
  {
    SubCardHead(s, i);
  }

  /** An output prefix without a mark's opening bracket was copied from the input. */
  lemma {:induction false} SubSsnCopied(s: string, i: nat, n: nat)
    requires i <= |s| && n <= |SubSsnFrom(s, i)|
    requires forall k :: 0 <= k < n ==> SubSsnFrom(s, i)[k] != '['
    ensures i + n <= |s| && SubSsnFrom(s, i) == s[i..i + n] + SubSsnFrom(s, i + n)
    decreases n
  {
    if n > 0 {
      var out := SubSsnFrom(s, i);
      assert i < |s|;
      SubSsnCopyStep(s, i);
      var t := SubSsnFrom(s, i + 1);
      assert out == [s[i]] + t;
      assert forall k :: 0 <= k < n - 1 ==> t[k] == out[k + 1];
      SubSsnCopied(s, i + 1, n - 1);
      ConsCopied(s, i, n, out, t, SubSsnFrom(s, i + n));
    }
  }

  lemma {:induction false} SubCardCopied(s: string, i: nat, n: nat)
    requires i <= |s| && n <= |SubCardFrom(s, i)|
    requires forall k :: 0 <= k < n ==> SubCardFrom(s, i)[k] != '['
    ensures i + n <= |s| && SubCardFrom(s, i) == s[i..i + n] + SubCardFrom(s, i + n)
    decreases n
  {
    if n > 0 {
      var out := SubCardFrom(s, i);
      assert i < |s|;
      SubCardCopyStep(s, i);
      var t := SubCardFrom(s, i + 1);
      assert out == [s[i]] + t;
      assert forall k :: 0 <= k < n - 1 ==> t[k] == out[k + 1];
      SubCardCopied(s, i + 1, n - 1);
      ConsCopied(s, i, n, out, t, SubCardFrom(s, i + n));
    }
  }

  /** An SSN at the head of the SSN substitution was an SSN of the input, but for its `\b` at the start. */
  lemma SubSsnHeadWindow(s: string, i: nat)
    requires i <= |s|
    ensures SsnAt(SubSsnFrom(s, i), 0) ==> !BoundaryBefore(s, i)
  {
    var out := SubSsnFrom(s, i);
    if SsnAt(out, 0) {
      SubSsnHead(s, i);
      SsnWindowHasNoBracket(out, 0);
      SubSsnCopied(s, i, 11);
      assert forall k :: i <= k < i + 11 ==> s[k] == out[k - i];
      if i + 11 < |s| {
        SubSsnHead(s, i + 11);
        assert out[11] == SubSsnFrom(s, i + 11)[0];
      }
    }
  }

  /** The same for an SSN at the head of the card substitution. */
  lemma SubCardSsnHeadWindow(s: string, i: nat)
    requires i <= |s|
    ensures SsnAt(SubCardFrom(s, i), 0) ==> !BoundaryBefore(s, i) || SsnAt(s, i)
  {
    var out := SubCardFrom(s, i);
    if SsnAt(out, 0) {
      SsnWindowHasNoBracket(out, 0);
      SubCardCopied(s, i, 11);
      assert forall k :: i <= k < i + 11 ==> s[k] == out[k - i];
      if i + 11 < |s| {
        SubCardHead(s, i + 11);
        CardMatchStart(s, i + 11);
        assert out[11] == SubCardFrom(s, i + 11)[0];
      }
    }
  }

  /** A card window copied into another text is a card there too, given the boundaries. */
  lemma CardTransfer(a: string, b: string, i: nat, b1: bool, b2: bool, b3: bool)
    requires CardWith(a, 0, b1, b2, b3)
    requires i + CardLength(b1, b2, b3) <= |b|
    requires forall k :: i <= k < i + CardLength(b1, b2, b3) ==> b[k] == a[k - i]
    requires BoundaryAfter(b, i + CardLength(b1, b2, b3))
    ensures BoundaryBefore(b, i) ==> CardWith(b, i, b1, b2, b3)
  {
    var g2 := 4 + Bit(b1);
    var g3 := g2 + 4 + Bit(b2);
    var g4 := g3 + 4 + Bit(b3);
    assert DigitsAt(b, i, 4) && DigitsAt(b, i + g2, 4) && DigitsAt(b, i + g3, 4) && DigitsAt(b, i + g4, 4);
  }

  /** A copied stretch of the card substitution, character by character, with what follows it. */
  lemma SubCardWindow(s: string, i: nat, n: nat)
    requires i <= |s| && n <= |SubCardFrom(s, i)|
    requires forall k :: 0 <= k < n ==> SubCardFrom(s, i)[k] != '['
    ensures i + n <= |s|
    ensures forall k :: i <= k < i + n ==> s[k] == SubCardFrom(s, i)[k - i]
    ensures i + n < |s| ==> n < |SubCardFrom(s, i)| && SubCardFrom(s, i)[n] == SubCardFrom(s, i + n)[0]
  {
    SubCardCopied(s, i, n);
    if i + n < |s| {
      SubCardHead(s, i + n);
    }
  }

  /** And for a card at the head of the card substitution. */
  lemma SubCardHeadWindow(s: string, i: nat, b1: bool, b2: bool, b3: bool)
    requires i <= |s|
    ensures CardWith(SubCardFrom(s, i), 0, b1, b2, b3) ==> !BoundaryBefore(s, i)
  {
    var out := SubCardFrom(s, i);
    if CardWith(out, 0, b1, b2, b3) {
      var n := CardLength(b1, b2, b3);
      CardWindowHasNoBracket(out, 0, b1, b2, b3);
      SubCardWindow(s, i, n);
      if i + n < |s| {
        SubCardHead(s, i + n);
        CardMatchStart(s, i + n);
      }
      CardTransfer(out, s, i, b1, b2, b3);
      CardMatchLengthIff(s, i);
    }
  }

  /** Text without digits in front of a text without SSNs adds none, unless the text opens with a digit. */
  lemma MarkThenNoSsn(x: string, t: string)
    requires forall k :: 0 <= k < |x| ==> !IsDigit(x[k])
    requires t == [] || !IsDigit(t[0])
    requires forall q :: 1 <= q < |t| ==> !SsnAt(t, q)
    ensures forall q :: 1 <= q < |x + t| ==> !SsnAt(x + t, q)
  {
    forall q | 1 <= q < |x + t| ensures !SsnAt(x + t, q) {
      if q < |x| {
        assert (x + t)[q] == x[q];
      } else {
        SsnShift(x, t, q - |x|);
      }
    }
  }

  /** One character in front of a text without SSNs adds none, unless it is a word character before one. */
  lemma CharThenNoSsn(c: char, t: string)
    requires SsnAt(t, 0) ==> IsWordChar(c)
    requires forall q :: 1 <= q < |t| ==> !SsnAt(t, q)
    ensures forall q :: 1 <= q < |[c] + t| ==> !SsnAt([c] + t, q)
  {
    forall q | 1 <= q < |[c] + t| ensures !SsnAt([c] + t, q) {
      SsnShift([c], t, q - 1);
    }
  }

  /** The same two facts for card numbers. */
  lemma MarkThenNoCard(x: string, t: string)
    requires forall k :: 0 <= k < |x| ==> !IsDigit(x[k])
    requires t == [] || !IsDigit(t[0])
    requires forall q, b1, b2, b3 :: 1 <= q < |t| ==> !CardWith(t, q, b1, b2, b3)
    ensures forall q, b1, b2, b3 :: 1 <= q < |x + t| ==> !CardWith(x + t, q, b1, b2, b3)
  {
    forall q, b1, b2, b3 | 1 <= q < |x + t| ensures !CardWith(x + t, q, b1, b2, b3) {
      if q < |x| {
        assert (x + t)[q] == x[q];
      } else {
        CardShift(x, t, q - |x|, b1, b2, b3);
      }
    }
  }

  lemma CharThenNoCard(c: char, t: string)
    requires forall b1, b2, b3 :: CardWith(t, 0, b1, b2, b3) ==> IsWordChar(c)
    requires forall q, b1, b2, b3 :: 1 <= q < |t| ==> !CardWith(t, q, b1, b2, b3)
    ensures forall q, b1, b2, b3 :: 1 <= q < |[c] + t| ==> !CardWith([c] + t, q, b1, b2, b3)
  {
    forall q, b1, b2, b3 | 1 <= q < |[c] + t| ensures !CardWith([c] + t, q, b1, b2, b3) {
      CardShift([c], t, q - 1, b1, b2, b3);
    }
  }

  /**
   * The SSN substitution leaves no SSN after its first character, and one at
   * its first character only where the input has a word character before `i`.
   */
  lemma {:induction false} SubSsnLeavesNoSsn(s: string, i: nat)
    requires i <= |s|
    ensures forall q :: 1 <= q < |SubSsnFrom(s, i)| ==> !SsnAt(SubSsnFrom(s, i), q)
    ensures SsnAt(SubSsnFrom(s, i), 0) ==> !BoundaryBefore(s, i)
    decreases |s| - i
  {
    var out := SubSsnFrom(s, i);
    MarksHoldNoDigits();
    SubSsnHeadWindow(s, i);
    if i < |s| && SsnAt(s, i) {
      var t := SubSsnFrom(s, i + 11);
      assert out == SsnMark + t;
      SubSsnLeavesNoSsn(s, i + 11);
      if i + 11 < |s| {
        SubSsnHead(s, i + 11);
      }
      MarkThenNoSsn(SsnMark, t);
    } else if i < |s| {
      var t := SubSsnFrom(s, i + 1);
      assert out == [s[i]] + t;
      SubSsnLeavesNoSsn(s, i + 1);
      CharThenNoSsn(s[i], t);
    }
  }

  /** The card substitution leaves no card number (same shape as for SSNs). */
  lemma {:induction false} SubCardLeavesNoCard(s: string, i: nat)
    requires i <= |s|
    ensures forall q, b1, b2, b3 :: 1 <= q < |SubCardFrom(s, i)| ==> !CardWith(SubCardFrom(s, i), q, b1, b2, b3)
    ensures forall b1, b2, b3 :: CardWith(SubCardFrom(s, i), 0, b1, b2, b3) ==> !BoundaryBefore(s, i)
    decreases |s| - i
  {
    var out := SubCardFrom(s, i);
    MarksHoldNoDigits();
    forall b1, b2, b3 ensures CardWith(out, 0, b1, b2, b3) ==> !BoundaryBefore(s, i) {
      SubCardHeadWindow(s, i, b1, b2, b3);
    }
    if i < |s| && CardMatchLength(s, i).Some? {
      var len := CardMatchLength(s, i).value;
      CardMatchLengthIff(s, i);
      var c1, c2, c3 :| CardWith(s, i, c1, c2, c3) && len == CardLength(c1, c2, c3);
      var t := SubCardFrom(s, i + len);
      assert out == CardMark + t;
      SubCardLeavesNoCard(s, i + len);
      if i + len < |s| {
        SubCardHead(s, i + len);
      }
      MarkThenNoCard(CardMark, t);
    } else if i < |s| {
      var t := SubCardFrom(s, i + 1);
      assert out == [s[i]] + t;
      SubCardLeavesNoCard(s, i + 1);
      CharThenNoCard(s[i], t);
    }
  }

  /** The card substitution creates no SSN in a text that has none. */
  lemma {:induction false} SubCardKeepsNoSsn(s: string, i: nat)
    requires i <= |s| && !HasSsn(s)
    ensures forall q :: 1 <= q < |SubCardFrom(s, i)| ==> !SsnAt(SubCardFrom(s, i), q)
    ensures SsnAt(SubCardFrom(s, i), 0) ==> !BoundaryBefore(s, i)
    decreases |s| - i
  {
    var out := SubCardFrom(s, i);
    MarksHoldNoDigits();
    SubCardSsnHeadWindow(s, i);
    if i < |s| && CardMatchLength(s, i).Some? {
      var len := CardMatchLength(s, i).value;
      CardMatchLengthIff(s, i);
      var c1, c2, c3 :| CardWith(s, i, c1, c2, c3) && len == CardLength(c1, c2, c3);
      var t := SubCardFrom(s, i + len);
      assert out == CardMark + t;
      SubCardKeepsNoSsn(s, i + len);
      if i + len < |s| {
        SubCardHead(s, i + len);
      }
      MarkThenNoSsn(CardMark, t);
    } else if i < |s| {
      var t := SubCardFrom(s, i + 1);
      assert out == [s[i]] + t;
      SubCardKeepsNoSsn(s, i + 1);
      CharThenNoSsn(s[i], t);
    }
  }

  /** After redaction neither detector finds an SSN or a card number. */
  lemma RedactionRemovesSsnAndCards(text: string)
    ensures !HasSsn(Redacted(text)) && !HasCard(Redacted(text))
  {
    var u := SubSsnFrom(text, 0);
    SubSsnLeavesNoSsn(text, 0);
    SubCardKeepsNoSsn(u, 0);
    SubCardLeavesNoCard(u, 0);
  }
}
