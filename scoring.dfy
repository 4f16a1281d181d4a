/** Weighted interaction scoring for A/B variants, and the regeneration trigger. */
module Scoring {
  import opened Wrappers
  import opened Common

  /** The default weight of each interaction type: positive for engagement, negative for
      friction, near zero for neutral signals. */
  const DefaultWeights: map<string, real> := map[
    "click" := 1.0, "cta_click" := 3.0, "add_to_cart" := 5.0, "purchase" := 10.0,
    "form_submit" := 4.0, "signup" := 6.0, "share" := 2.0, "save" := 2.5,
    "hover_long" := 0.5, "scroll_to_bottom" := 1.5, "video_play" := 1.0, "video_complete" := 3.0,
    "bounce" := -2.0, "rage_click" := -1.5, "dead_click" := -0.5, "scroll_fast" := -0.3,
    "exit_intent" := -1.0, "tab_switch" := -0.2,
    "page_view" := 0.1, "component_view" := 0.2, "scroll" := 0.05, "mouse_move" := 0.0]

  /** The score gap at which the losing variant is regenerated. */
  const DefaultScoreThreshold: real := 5.0

  /** The configurable weights (the update time is not modelled). */
  datatype ScoringWeights = ScoringWeights(weights: map<string, real>, scoreThreshold: real)

  function NewScoringWeights(): (w: ScoringWeights)
    ensures w.weights == DefaultWeights && w.scoreThreshold == 5.0
  {
    ScoringWeights(DefaultWeights, DefaultScoreThreshold)
  }

  /** The running score of one variant (timestamps not modelled). */
  datatype VariantScore = VariantScore(variantId: string, currentScore: real, interactionCount: int, scoreHistory: seq<real>)

  function NewVariantScore(variantId: string): (v: VariantScore)
    ensures v.variantId == variantId && v.currentScore == 0.0 && v.interactionCount == 0 && v.scoreHistory == []
  {
    VariantScore(variantId, 0.0, 0, [])
  }

  /** The scores of both variants for one user and component. */
  datatype UserScores = UserScores(
    userId: string, businessId: string, componentId: string,
    variantA: VariantScore, variantB: VariantScore,
    activeVariant: string, regenerationCount: int)

  function NewUserScores(userId: string, businessId: string, componentId: string): (u: UserScores)
    ensures u.variantA == NewVariantScore("A") && u.variantB == NewVariantScore("B")
    ensures u.activeVariant == "A" && u.regenerationCount == 0
    ensures u.userId == userId && u.businessId == businessId && u.componentId == componentId
  {
    UserScores(userId, businessId, componentId, NewVariantScore("A"), NewVariantScore("B"), "A", 0)
  }

  /** `calculate_score_delta`: the table's weight, 0 for an unknown interaction type. */
  function CalculateScoreDelta(interactionType: string, weights: map<string, real>): (r: real)
    ensures interactionType in weights ==> r == weights[interactionType]
    ensures interactionType !in weights ==> r == 0.0
  {
    if interactionType in weights then weights[interactionType] else 0.0
  }

  /** `should_trigger_regeneration`: whether to regenerate, and which variant (the loser). */
  function ShouldTriggerRegeneration(scoreA: real, scoreB: real, threshold: real): (r: (bool, Option<string>))
    ensures r.0 <==> Abs(scoreA - scoreB) >= threshold
    ensures r.0 <==> r.1.Some?
    ensures r.1 == Some("B") ==> scoreA > scoreB
    ensures r.1 == Some("A") ==> scoreA <= scoreB
  {
    var diff := Abs(scoreA - scoreB);
    if diff >= threshold then
      if scoreA > scoreB then (true, Some("B")) else (true, Some("A"))
    else (false, None)
  }

  // ----- Lemmas -----

  /** Without a trigger the answer is exactly (false, None); with one it names the lower-scoring
      variant, and a tie names A. */
  lemma RegenerationOutcome(scoreA: real, scoreB: real, threshold: real)
    ensures Abs(scoreA - scoreB) < threshold ==> ShouldTriggerRegeneration(scoreA, scoreB, threshold) == (false, None)
    ensures Abs(scoreA - scoreB) >= threshold ==>
      ShouldTriggerRegeneration(scoreA, scoreB, threshold) == (true, Some(if scoreA > scoreB then "B" else "A"))
    ensures scoreA == scoreB && threshold <= 0.0 ==> ShouldTriggerRegeneration(scoreA, scoreB, threshold) == (true, Some("A"))
  {
  }

  /** For different scores, swapping them swaps the regenerated letter. */
  lemma RegenerationSymmetric(scoreA: real, scoreB: real, threshold: real)
    requires scoreA != scoreB
    ensures ShouldTriggerRegeneration(scoreA, scoreB, threshold).0 == ShouldTriggerRegeneration(scoreB, scoreA, threshold).0
    ensures ShouldTriggerRegeneration(scoreA, scoreB, threshold).1 == Some("A") <==>
            ShouldTriggerRegeneration(scoreB, scoreA, threshold).1 == Some("B")
  {
  }

  /** With the defaults, a purchase on A against nothing on B regenerates B, and a click alone
      does not trigger. */
  lemma DefaultsExample()
    ensures CalculateScoreDelta("purchase", DefaultWeights) == 10.0
    ensures CalculateScoreDelta("click", DefaultWeights) == 1.0
    ensures ShouldTriggerRegeneration(CalculateScoreDelta("purchase", DefaultWeights), 0.0, DefaultScoreThreshold) == (true, Some("B"))
    ensures ShouldTriggerRegeneration(CalculateScoreDelta("click", DefaultWeights), 0.0, DefaultScoreThreshold) == (false, None)
  {
  }

  /** Friction signals weigh negatively, mouse movement not at all, and an unknown type scores 0. */
  lemma DefaultWeightSigns(unknown: string)
    requires unknown !in DefaultWeights
    ensures forall t :: t in ["bounce", "rage_click", "dead_click", "scroll_fast", "exit_intent", "tab_switch"] ==>
      CalculateScoreDelta(t, DefaultWeights) < 0.0
    ensures CalculateScoreDelta("mouse_move", DefaultWeights) == 0.0
    ensures CalculateScoreDelta(unknown, DefaultWeights) == 0.0
  {
  }

  /** A fresh pair of scores does not trigger regeneration at the default threshold. */
  lemma FreshScoresDoNotTrigger(userId: string, businessId: string, componentId: string)
    ensures var u := NewUserScores(userId, businessId, componentId);
      ShouldTriggerRegeneration(u.variantA.currentScore, u.variantB.currentScore, NewScoringWeights().scoreThreshold) == (false, None)
  {
  }
}
