/** The identity agent: a behavioural vector becomes one of the seven identity labels, by an
    external classifier when it answers well and by a fixed rule chain otherwise. */
module IdentityAgent {
  import opened Wrappers
  import opened Common
  import opened Events

  const Name: string := "Identity Interpretation Agent"

  /** What the external classifier call produced: the three fields of its JSON answer, or a
      failure (the call raised, or the answer was not JSON with those fields). */
  datatype ClassifierAnswer =
    | Answer(identityState: string, confidence: real, reasoning: string)
    | Failure(message: string)

  /** The label, the confidence and the audit entry an interpretation yields. */
  datatype Interpretation = Interpretation(state: IdentityState, confidence: real, entry: string)

  /** `_rule_based_fallback`: the first rule that fires decides. */
  function RuleBasedFallback(v: BehavioralVector): IdentityState
  {
    if v.hesitationScore > 0.7 && v.explorationScore > 0.6 then Overwhelmed
    else if v.decisionVelocity > 0.7 && v.hesitationScore < 0.3 then Confident
    else if v.engagementDepth > 0.7 && v.contentFocusRatio > 0.6 then ComparisonFocused
    else if v.decisionVelocity > 0.7 && v.engagementDepth < 0.4 then ImpulseBuyer
    else if v.explorationScore > 0.6 then Exploratory
    else Cautious
  }

  /** The confidence a classifier failure is given. */
  const FallbackConfidence: real := 0.6

  function FallbackOn(v: BehavioralVector, message: string): Interpretation
  {
    Interpretation(RuleBasedFallback(v), FallbackConfidence, "LLM error, using rule-based fallback: " + message)
  }

  /** The message of the exception `IdentityState(label)` raises for an unknown label. */
  function InvalidLabelMessage(name: string): string
  {
    "'" + name + "' is not a valid IdentityState"
  }

  /** The try/except of `process` as written: a known label is taken with whatever confidence the
      classifier reported. */
  function InterpretAsWritten(v: BehavioralVector, a: ClassifierAnswer): Interpretation
  {
    match a
    case Failure(message) => FallbackOn(v, message)
    case Answer(stateName, confidence, reasoning) =>
      match ParseIdentityState(stateName)
      case None => FallbackOn(v, InvalidLabelMessage(stateName))
      case Some(state) => Interpretation(state, confidence, "Identified as " + state.Value() + " - " + reasoning)
  }

  function ConfidenceRangeMessage(): string
  {
    "confidence outside [0, 1]"
  }

  /** The interpretation with a reported confidence outside [0,1] treated as one more malformed
      answer, so that the confidence handed to the decision stage is a valid decision confidence. */
  function Interpret(v: BehavioralVector, a: ClassifierAnswer): (r: Interpretation)
    ensures InUnit(r.confidence)
    ensures a.Answer? && InUnit(a.confidence) ==> r == InterpretAsWritten(v, a)
  {
    if a.Answer? && !InUnit(a.confidence) then FallbackOn(v, ConfidenceRangeMessage())
    else InterpretAsWritten(v, a)
  }

  const StartEntry: string := Name + ": Interpreting behavioral vector"
  const NoVectorEntry: string := Name + ": No vector available, defaulting to EXPLORATORY"

  /** What `process` does to a session: a label and a confidence are always set, and exactly two
      audit entries are added; nothing else changes. */
  function IdentityStep(s: SessionState, a: ClassifierAnswer, timestamp: string): (r: SessionState)
    ensures r == s.(identityState := r.identityState, identityConfidence := r.identityConfidence, auditLog := r.auditLog)
    ensures r.identityState.Some? && InUnit(r.identityConfidence)
    ensures |r.auditLog| == |s.auditLog| + 2 && r.auditLog[..|s.auditLog|] == s.auditLog
  {
    var first := s.auditLog + [Stamp(timestamp, StartEntry)];
    match s.behavioralVector
    case None =>
      s.(identityState := Some(Exploratory), identityConfidence := 0.5,
         auditLog := first + [Stamp(timestamp, NoVectorEntry)])
    case Some(v) =>
      var i := Interpret(v, a);
      s.(identityState := Some(i.state), identityConfidence := i.confidence,
         auditLog := first + [Stamp(timestamp, Name + ": " + i.entry)])
  }

  /** `process`, on the session in place. */
  method Process(session: UserSession, a: ClassifierAnswer, timestamp: string)
    modifies session
    ensures session.Value() == IdentityStep(old(session.Value()), a, timestamp)
  {
    session.AddAuditEntry(timestamp, StartEntry);
    if session.behavioralVector.None? {
      session.identityState := Some(Exploratory);
      session.identityConfidence := 0.5;
      session.AddAuditEntry(timestamp, NoVectorEntry);
      return;
    }
    var i := Interpret(session.behavioralVector.value, a);
    session.identityState := Some(i.state);
    session.identityConfidence := i.confidence;
    session.AddAuditEntry(timestamp, Name + ": " + i.entry);
  }

  // ----- Lemmas -----

  /** Without a vector the label is EXPLORATORY at 0.5 and the classifier's answer plays no part. */
  lemma NoVectorDefaultsToExploratory(s: SessionState, a1: ClassifierAnswer, a2: ClassifierAnswer, timestamp: string)
    requires s.behavioralVector.None?
    ensures IdentityStep(s, a1, timestamp).identityState == Some(Exploratory)
    ensures IdentityStep(s, a1, timestamp).identityConfidence == 0.5
    ensures IdentityStep(s, a1, timestamp) == IdentityStep(s, a2, timestamp)
  {
  }

  /** A failed call, an unknown label or an out-of-range confidence all give the rule result at
      confidence 0.6; a well-formed answer is taken as it is. */
  lemma ClassifierOutcomes(s: SessionState, a: ClassifierAnswer, timestamp: string)
    requires s.behavioralVector.Some?
    ensures var r := IdentityStep(s, a, timestamp);
      if a.Answer? && ParseIdentityState(a.identityState).Some? && InUnit(a.confidence) then
        r.identityState == ParseIdentityState(a.identityState) && r.identityState.value.Value() == a.identityState
        && r.identityConfidence == a.confidence
      else
        r.identityState == Some(RuleBasedFallback(s.behavioralVector.value)) && r.identityConfidence == 0.6
  {
  }

  /** The rule chain never yields READY_TO_DECIDE. */
  lemma FallbackNeverReadyToDecide(v: BehavioralVector)
    ensures RuleBasedFallback(v) != ReadyToDecide
    ensures RuleBasedFallback(v) in AllIdentityStates
  {
  }

  /** High hesitation with high exploration is OVERWHELMED whatever the other features are, and
      OVERWHELMED is given for nothing else. */
  lemma OverwhelmedRule(v: BehavioralVector)
    ensures RuleBasedFallback(v) == Overwhelmed <==> v.hesitationScore > 0.7 && v.explorationScore > 0.6
  {
  }

  /** CAUTIOUS is the answer exactly when no rule fires. */
  lemma CautiousWhenNoRuleFires(v: BehavioralVector)
    ensures RuleBasedFallback(v) == Cautious <==>
      v.explorationScore <= 0.6
      && !(v.decisionVelocity > 0.7 && v.hesitationScore < 0.3)
      && !(v.engagementDepth > 0.7 && v.contentFocusRatio > 0.6)
      && !(v.decisionVelocity > 0.7 && v.engagementDepth < 0.4)
  {
  }

  /** Hesitation 0.8 with exploration 0.7 classifies as overwhelmed. */
  lemma OverwhelmedExample(v: BehavioralVector)
    requires v.hesitationScore == 0.8 && v.explorationScore == 0.7
    ensures RuleBasedFallback(v) == Overwhelmed
  {
  }

  /** As written, a well-formed label with confidence 85 is stored as confidence 85. */
  lemma AsWrittenKeepsOutOfRangeConfidence(v: BehavioralVector)
    ensures InterpretAsWritten(v, Answer("confident", 85.0, "")).confidence == 85.0
    ensures !InUnit(InterpretAsWritten(v, Answer("confident", 85.0, "")).confidence)
  {
    assert ParseIdentityState("confident") == Some(Confident) by {
      IdentityStatesClosed(Confident, "confident");
    }
  }
}
