/** The variant records: UI variants, the selector's decision and the guardrail verdict. */
module Variants {
  import opened Wrappers
  import opened Common

  /** One alternative version of a component's content. `content` keeps the string-valued
      entries of the source's dictionary; `created_at` is not modelled. */
  datatype UIVariant = UIVariant(
    variantId: string,
    componentId: string,
    variantType: string,
    content: map<string, string>,
    targetIdentity: Option<string>,
    performanceMetrics: map<string, real>)

  /** A variant built without the two optional fields: no target identity (a wildcard for the
      selector) and no performance metrics. */
  function NewVariant(variantId: string, componentId: string, variantType: string,
                      content: map<string, string>): (v: UIVariant)
    ensures v.targetIdentity == None && v.performanceMetrics == map[]
    ensures v.variantId == variantId && v.componentId == componentId
    ensures v.variantType == variantType && v.content == content
  {
    UIVariant(variantId, componentId, variantType, content, None, map[])
  }

  /** The selector's decision. */
  datatype VariantDecision = VariantDecision(
    selectedVariant: UIVariant,
    rationale: string,
    confidence: real,
    explorationFactor: real)

  /** Building a `VariantDecision`: validation fails (None) exactly when the confidence or the
      exploration factor lies outside [0,1]. */
  function MakeDecision(selected: UIVariant, rationale: string, confidence: real,
                        explorationFactor: real): (r: Option<VariantDecision>)
    ensures r.Some? <==> InUnit(confidence) && InUnit(explorationFactor)
    ensures r.Some? ==> r.value == VariantDecision(selected, rationale, confidence, explorationFactor)
  {
    if InUnit(confidence) && InUnit(explorationFactor)
    then Some(VariantDecision(selected, rationale, confidence, explorationFactor))
    else None
  }

  /** The guardrail verdict. */
  datatype GuardrailCheck = GuardrailCheck(approved: bool, reason: string, violatedRules: seq<string>)

  /** A verdict built without a rule list has no violated rules. */
  function NewGuardrailCheck(approved: bool, reason: string): (g: GuardrailCheck)
    ensures g.violatedRules == [] && g.approved == approved && g.reason == reason
  {
    GuardrailCheck(approved, reason, [])
  }
}
