/** The guardrail agent: five policy checks on the decision, and a verdict. */
module GuardrailAgent {
  import opened Wrappers
  import opened Text
  import opened Variants
  import opened Events

  const Name: string := "Guardrail Agent"

  const ProtectedTraitRule: string := "Protected trait inference detected"
  const PriceRule: string := "Price manipulation detected"
  const SessionScopeRule: string := "Session scope violation"
  const LanguageRule: string := "Language inconsistency detected"
  const ComponentScopeRule: string := "Unauthorized component modification"

  const ApprovedComponents: seq<string> := ["hero", "product_card", "cta_banner", "testimonials"]
  const AllowedTypes: seq<string> := ["headline", "cta", "image", "layout"]

  /** Check 1: demographic data flagged in the outcome metrics, unless the decision rests on an
      identity and a behavioural vector. */
  predicate ProtectedTraitViolated(s: SessionState)
  {
    !(s.identityState.Some? && s.behavioralVector.Some?) && s.outcomeMetrics.demographics
  }

  /** Check 2: the selected content carries a price or a discount. */
  predicate PriceViolated(s: SessionState)
  {
    s.outcomeMetrics.variantDecision.Some?
    && var content := s.outcomeMetrics.variantDecision.value.selectedVariant.content;
    ("price" in content || "discount" in content)
  }

  /** Check 3: session scope; never reported. */
  predicate SessionScopeViolated(s: SessionState)
  {
    false
  }

  /** Check 4: language consistency; never reported. */
  predicate LanguageViolated(s: SessionState)
  {
    false
  }

  /** Check 5: the selected variant's component or type is not on its allow-list. */
  predicate ComponentScopeViolated(s: SessionState)
  {
    s.outcomeMetrics.variantDecision.Some?
    && var v := s.outcomeMetrics.variantDecision.value.selectedVariant;
    (v.componentId !in ApprovedComponents || v.variantType !in AllowedTypes)
  }

  /** The violations, in the order the checks run. */
  function Violations(s: SessionState): seq<string>
  {
    (if ProtectedTraitViolated(s) then [ProtectedTraitRule] else [])
    + (if PriceViolated(s) then [PriceRule] else [])
    + (if SessionScopeViolated(s) then [SessionScopeRule] else [])
    + (if LanguageViolated(s) then [LanguageRule] else [])
    + (if ComponentScopeViolated(s) then [ComponentScopeRule] else [])
  }

  const AllPassed: string := "All checks passed"

  function Verdict(violations: seq<string>): GuardrailCheck
  {
    var approved := |violations| == 0;
    GuardrailCheck(approved, if approved then AllPassed else "Violations: " + Join(violations, ", "), violations)
  }

  const StartEntry: string := Name + ": Validating decision against guardrails"

  function FinalEntry(violations: seq<string>): string
  {
    if |violations| == 0 then Name + ": ✓ All guardrails passed"
    else Name + ": ✗ Guardrail violations: " + Join(violations, ", ")
  }

  /** What `process` does to a session. */
  function GuardrailStep(s: SessionState, timestamp: string): SessionState
  {
    var violations := Violations(s);
    s.(outcomeMetrics := s.outcomeMetrics.(guardrailCheck := Some(Verdict(violations))),
       auditLog := s.auditLog + [Stamp(timestamp, StartEntry), Stamp(timestamp, FinalEntry(violations))])
  }

  /** `process`, on the session in place. */
  method Process(session: UserSession, timestamp: string)
    modifies session
    ensures session.Value() == GuardrailStep(old(session.Value()), timestamp)
  {
    session.AddAuditEntry(timestamp, StartEntry);
    ghost var s := session.Value();
    var violations: seq<string> := [];
    if ProtectedTraitViolated(session.Value()) {
      violations := violations + [ProtectedTraitRule];
    }
    if PriceViolated(session.Value()) {
      violations := violations + [PriceRule];
    }
    if SessionScopeViolated(session.Value()) {
      violations := violations + [SessionScopeRule];
    }
    if LanguageViolated(session.Value()) {
      violations := violations + [LanguageRule];
    }
    if ComponentScopeViolated(session.Value()) {
      violations := violations + [ComponentScopeRule];
    }
    assert violations == Violations(s);
    var check := Verdict(violations);
    session.outcomeMetrics := session.outcomeMetrics.(guardrailCheck := Some(check));
    session.AddAuditEntry(timestamp, FinalEntry(violations));
  }

  // ----- Lemmas -----

  /** Approved exactly when no check fires, and each rule is listed exactly when its check fires;
      the session-scope and language rules are never listed. */
  lemma ApprovedIffNoViolation(s: SessionState)
    ensures Verdict(Violations(s)).approved <==> !ProtectedTraitViolated(s) && !PriceViolated(s) && !ComponentScopeViolated(s)
    ensures Verdict(Violations(s)).approved <==> Verdict(Violations(s)).violatedRules == []
    ensures ProtectedTraitRule in Violations(s) <==> ProtectedTraitViolated(s)
    ensures PriceRule in Violations(s) <==> PriceViolated(s)
    ensures ComponentScopeRule in Violations(s) <==> ComponentScopeViolated(s)
    ensures SessionScopeRule !in Violations(s) && LanguageRule !in Violations(s)
  {
  }

  /** The reason is "All checks passed" exactly when the verdict is approved. */
  lemma {:induction false} ReasonIffApproved(violations: seq<string>)
    ensures Verdict(violations).reason == AllPassed <==> Verdict(violations).approved
    ensures !Verdict(violations).approved ==> Verdict(violations).reason == "Violations: " + Join(violations, ", ")
  {
    if |violations| != 0 {
      var reason := "Violations: " + Join(violations, ", ");
      assert reason[0] == 'V' && AllPassed[0] == 'A';
    }
  }

  /** The protected-trait check never fires for a session with an identity and a vector; without
      one of them it fires exactly when demographics are flagged. */
  lemma ProtectedTraitCheck(s: SessionState)
    ensures s.identityState.Some? && s.behavioralVector.Some? ==> !ProtectedTraitViolated(s)
    ensures !(s.identityState.Some? && s.behavioralVector.Some?) ==> (ProtectedTraitViolated(s) <==> s.outcomeMetrics.demographics)
  {
  }

  /** Only the verdict and two audit entries change, the decision is untouched, and a second run
      yields the same verdict. */
  lemma GuardrailOnlyAddsVerdict(s: SessionState, t1: string, t2: string)
    ensures var r := GuardrailStep(s, t1);
      r == s.(outcomeMetrics := r.outcomeMetrics, auditLog := r.auditLog)
      && r.outcomeMetrics == s.outcomeMetrics.(guardrailCheck := r.outcomeMetrics.guardrailCheck)
      && r.auditLog[..|s.auditLog|] == s.auditLog && |r.auditLog| == |s.auditLog| + 2
    ensures GuardrailStep(GuardrailStep(s, t1), t2).outcomeMetrics == GuardrailStep(s, t1).outcomeMetrics
  {
    assert Violations(GuardrailStep(s, t1)) == Violations(s);
  }

  /** A hero headline without price or discount, chosen for a session with an identity and a
      vector, is approved. */
  lemma CleanDecisionApproved(s: SessionState)
    requires s.identityState.Some? && s.behavioralVector.Some?
    requires s.outcomeMetrics.variantDecision.Some?
    requires var v := s.outcomeMetrics.variantDecision.value.selectedVariant;
      v.componentId == "hero" && v.variantType == "headline" && "price" !in v.content && "discount" !in v.content
    ensures Verdict(Violations(s)) == GuardrailCheck(true, "All checks passed", [])
  {
    assert ApprovedComponents[0] == "hero" && AllowedTypes[0] == "headline";
  }
}
