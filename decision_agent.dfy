/** The decision agent: an epsilon-greedy contextual bandit that picks the hero variant. */
module DecisionAgent {
  import opened Wrappers
  import opened Common
  import opened Variants
  import opened Events

  const Name: string := "Decision Agent"

  /** The exploration rate. */
  const Epsilon: real := 0.2

  /** The one component the agent optimises. */
  const Hero: string := "hero"

  /** The random numbers one decision consumes: the uniform draw compared with epsilon, the
      index `random.choice` takes (reduced modulo the list length), and a standard normal sample
      per candidate position (the noise `gauss(0, s)` is `s * z(i)`). */
  datatype Draws = Draws(draw: real, pick: nat, z: nat -> real)

  /** What the agent settles on before the decision record is validated. */
  datatype Choice = Choice(variant: UIVariant, rationale: string, explorationFactor: real)

  /** `performance_metrics.get("conversion_rate", 0.0)`. */
  function ConversionRate(v: UIVariant): real
  {
    if "conversion_rate" in v.performanceMetrics then v.performanceMetrics["conversion_rate"] else 0.0
  }

  /** A variant aimed at this identity, or at nobody in particular. */
  predicate Targets(v: UIVariant, identity: IdentityState)
  {
    v.targetIdentity == Some(identity.Value()) || v.targetIdentity.None?
  }

  /** The order-preserving filter of the variants aimed at the identity. */
  function Matching(vs: seq<UIVariant>, identity: IdentityState): (r: seq<UIVariant>)
    ensures forall x :: x in r <==> x in vs && Targets(x, identity)
    ensures |r| <= |vs|
  {
    if vs == [] then []
    else Matching(vs[..|vs| - 1], identity) + (if Targets(vs[|vs| - 1], identity) then [vs[|vs| - 1]] else [])
  }

  /** The exploit candidates: the matching variants, or all of them when none matches. */
  function Candidates(vs: seq<UIVariant>, identity: IdentityState): (r: seq<UIVariant>)
    ensures forall x :: x in r ==> x in vs
    ensures |vs| > 0 ==> |r| > 0
    ensures (exists x :: x in vs && Targets(x, identity)) ==> forall x :: x in r ==> Targets(x, identity)
    ensures (exists x :: x in vs && Targets(x, identity)) ==> r == Matching(vs, identity)
    ensures (forall x :: x in vs ==> !Targets(x, identity)) ==> r == vs
  {
    var m := Matching(vs, identity);
    if m == [] then vs else assert m[0] in m; m
  }

  /** The Thompson-style score of a variant: its rate plus noise of deviation 0.1 * (1 - confidence). */
  function Sample(v: UIVariant, confidence: real, z: real): real
  {
    ConversionRate(v) + 0.1 * (1.0 - confidence) * z
  }

  function Samples(cs: seq<UIVariant>, confidence: real, z: nat -> real): (r: seq<real>)
    ensures |r| == |cs|
    ensures forall i :: 0 <= i < |cs| ==> r[i] == Sample(cs[i], confidence, z(i))
  {
    seq(|cs|, i requires 0 <= i < |cs| => Sample(cs[i], confidence, z(i)))
  }

  /** The position a stable sort in decreasing order puts first: a largest score, and the
      earliest of the largest ones. */
  function BestIndex(scores: seq<real>): (r: nat)
    requires |scores| > 0
    ensures r < |scores|
    ensures forall j :: 0 <= j < |scores| ==> scores[j] <= scores[r]
    ensures forall j :: 0 <= j < r ==> scores[j] < scores[r]
  {
    if |scores| == 1 then 0
    else
      var b := BestIndex(scores[..|scores| - 1]);
      if scores[|scores| - 1] > scores[b] then |scores| - 1 else b
  }

  /** The variant `_select_best_variant` returns. */
  function ExploitChoice(vs: seq<UIVariant>, identity: IdentityState, confidence: real, z: nat -> real): UIVariant
    requires |vs| > 0
  {
    var cs := Candidates(vs, identity);
    cs[BestIndex(Samples(cs, confidence, z))]
  }

  function TargetText(t: Option<string>): string
  {
    match t
    case None => "None"
    case Some(s) => s
  }

  function ExploitRationale(v: UIVariant): string
  {
    "Exploitation mode: selected " + v.variantId + " (target_identity=" + TargetText(v.targetIdentity) + ")"
  }

  function ExploreRationale(v: UIVariant): string
  {
    "Exploration mode: randomly selected " + v.variantId
  }

  /** Explore with probability epsilon, otherwise exploit; exploiting without an identity fails
      (the source dereferences `identity.value` of None). */
  function ChooseVariant(available: seq<UIVariant>, identity: Option<IdentityState>, confidence: real, d: Draws)
    : Result<Choice, StageError>
    requires |available| > 0
  {
    if d.draw < Epsilon then
      var v := available[d.pick % |available|];
      Ok(Choice(v, ExploreRationale(v), 1.0))
    else if identity.None? then Err(MissingIdentity)
    else
      var v := ExploitChoice(available, identity.value, confidence, d.z);
      Ok(Choice(v, ExploitRationale(v), 0.0))
  }

  function IdentityText(identity: Option<IdentityState>): string
  {
    match identity
    case None => "None"
    case Some(x) => x.Value()
  }

  function StartEntry(identity: Option<IdentityState>): string
  {
    Name + ": Selecting variant for identity=" + IdentityText(identity)
  }

  const NoVariantsEntry: string := Name + ": No variants available for " + Hero

  function SelectedEntry(v: UIVariant, rationale: string): string
  {
    Name + ": Selected '" + v.variantId + "' - " + rationale
  }

  /** The hero variants of the catalogue. */
  function HeroVariants(db: map<string, seq<UIVariant>>): seq<UIVariant>
  {
    if Hero in db then db[Hero] else []
  }

  /** What `process` does to a session, given the catalogue and the random draws. */
  function DecisionStep(s: SessionState, db: map<string, seq<UIVariant>>, d: Draws, timestamp: string)
    : Result<SessionState, StageError>
  {
    var available := HeroVariants(db);
    var start := Stamp(timestamp, StartEntry(s.identityState));
    if available == [] then
      Ok(s.(auditLog := s.auditLog + [start, Stamp(timestamp, NoVariantsEntry)]))
    else
      match ChooseVariant(available, s.identityState, s.identityConfidence, d)
      case Err(e) => Err(e)
      case Ok(c) =>
        match MakeDecision(c.variant, c.rationale, s.identityConfidence, c.explorationFactor)
        case None => Err(InvalidDecision)
        case Some(decision) =>
          Ok(s.(lastVariantShown := Some(c.variant.variantId),
                outcomeMetrics := s.outcomeMetrics.(variantDecision := Some(decision)),
                auditLog := s.auditLog + [start, Stamp(timestamp, SelectedEntry(c.variant, c.rationale))]))
  }

  /** `process`, on the session in place. The failing cases raise in the source, after which the
      caller keeps its own state; here they leave the session as it was. */
  method Process(session: UserSession, db: map<string, seq<UIVariant>>, d: Draws, timestamp: string)
    returns (err: Option<StageError>)
    modifies session
    ensures Applied(DecisionStep(old(session.Value()), db, d, timestamp), err, old(session.Value()), session.Value())
  {
    var available := HeroVariants(db);
    if available == [] {
      session.AddAuditEntry(timestamp, StartEntry(session.identityState));
      session.AddAuditEntry(timestamp, NoVariantsEntry);
      return None;
    }
    var selected: UIVariant;
    var rationale: string;
    var explorationFactor: real;
    if d.draw < Epsilon {
      selected := available[d.pick % |available|];
      rationale := ExploreRationale(selected);
      explorationFactor := 1.0;
    } else {
      if session.identityState.None? {
        return Some(MissingIdentity);
      }
      selected, rationale := SelectBestVariant(available, session.identityState.value, session.identityConfidence, d.z);
      explorationFactor := 0.0;
    }
    var decision := MakeDecision(selected, rationale, session.identityConfidence, explorationFactor);
    if decision.None? {
      return Some(InvalidDecision);
    }
    session.AddAuditEntry(timestamp, StartEntry(session.identityState));
    session.lastVariantShown := Some(selected.variantId);
    session.outcomeMetrics := session.outcomeMetrics.(variantDecision := decision);
    session.AddAuditEntry(timestamp, SelectedEntry(selected, rationale));
    err := None;
  }

  /** `_select_best_variant`: filter, score each candidate, and take the first of the scores
      sorted in decreasing order. */
  method SelectBestVariant(variants: seq<UIVariant>, identity: IdentityState, confidence: real, z: nat -> real)
    returns (best: UIVariant, rationale: string)
    requires |variants| > 0
    ensures best == ExploitChoice(variants, identity, confidence, z)
    ensures rationale == ExploitRationale(best)
  {
    var matching := FilterMatching(variants, identity);
    if matching == [] {
      matching := variants;
    }
    var scores := ScoreCandidates(matching, confidence, z);
    best := matching[BestIndex(scores)];
    rationale := ExploitRationale(best);
  }

  /** The list comprehension of the variants aimed at the identity. */
  method FilterMatching(variants: seq<UIVariant>, identity: IdentityState) returns (matching: seq<UIVariant>)
    ensures matching == Matching(variants, identity)
  {
    matching := [];
    for i := 0 to |variants|
      invariant matching == Matching(variants[..i], identity)
    {
      assert variants[..i + 1][..i] == variants[..i];
      if Targets(variants[i], identity) {
        matching := matching + [variants[i]];
      }
    }
    assert variants[..|variants|] == variants;
  }

  /** The scoring loop: one noisy sample per candidate, in order. */
  method ScoreCandidates(cs: seq<UIVariant>, confidence: real, z: nat -> real) returns (scores: seq<real>)
    ensures scores == Samples(cs, confidence, z)
  {
    scores := [];
    for i := 0 to |cs|
      invariant |scores| == i
      invariant forall j :: 0 <= j < i ==> scores[j] == Sample(cs[j], confidence, z(j))
    {
      scores := scores + [Sample(cs[i], confidence, z(i))];
    }
  }

  // ----- The demo catalogue -----

  const DemoVariants: map<string, seq<UIVariant>> := map[Hero := [
    UIVariant("hero_confident_v1", "hero", "headline",
      map["headline" := "Complete Your Purchase Today", "subheadline" := "Join thousands of satisfied customers",
          "cta_text" := "Buy Now", "urgency" := "high"],
      Some("confident"), map["conversion_rate" := 0.15]),
    UIVariant("hero_exploratory_v1", "hero", "headline",
      map["headline" := "Discover Our Collection", "subheadline" := "Find the perfect fit for your needs",
          "cta_text" := "Explore Products", "urgency" := "low"],
      Some("exploratory"), map["conversion_rate" := 0.08]),
    UIVariant("hero_overwhelmed_v1", "hero", "headline",
      map["headline" := "We'll Help You Choose", "subheadline" := "Answer 3 quick questions to find your match",
          "cta_text" := "Get Started", "urgency" := "medium"],
      Some("overwhelmed"), map["conversion_rate" := 0.12]),
    UIVariant("hero_comparison_v1", "hero", "headline",
      map["headline" := "Compare Our Best Sellers", "subheadline" := "Side-by-side feature breakdown",
          "cta_text" := "See Comparison", "urgency" := "low"],
      Some("comparison_focused"), map["conversion_rate" := 0.11]),
    UIVariant("hero_ready_v1", "hero", "headline",
      map["headline" := "Ready to Check Out?", "subheadline" := "Free shipping on orders over $50",
          "cta_text" := "Proceed to Checkout", "urgency" := "high"],
      Some("ready_to_decide"), map["conversion_rate" := 0.18])
  ]]

  // ----- Lemmas -----

  /** Every demo variant is a hero headline whose content has no price or discount entry. */
  lemma DemoVariantsAreHeroHeadlines()
    ensures |HeroVariants(DemoVariants)| == 5
    ensures forall v :: v in HeroVariants(DemoVariants) ==>
      v.componentId == Hero && v.variantType == "headline" && "price" !in v.content && "discount" !in v.content
  {
  }

  /** The exploit pick is a candidate with a largest score, and every earlier candidate scores
      strictly less (ties go to the earliest). */
  lemma ExploitIsFirstMaximum(vs: seq<UIVariant>, identity: IdentityState, confidence: real, z: nat -> real)
    requires |vs| > 0
    ensures var cs := Candidates(vs, identity);
      exists k :: 0 <= k < |cs| && ExploitChoice(vs, identity, confidence, z) == cs[k]
        && (forall j :: 0 <= j < |cs| ==> Sample(cs[j], confidence, z(j)) <= Sample(cs[k], confidence, z(k)))
        && (forall j :: 0 <= j < k ==> Sample(cs[j], confidence, z(j)) < Sample(cs[k], confidence, z(k)))
  {
    var cs := Candidates(vs, identity);
    var k := BestIndex(Samples(cs, confidence, z));
    assert ExploitChoice(vs, identity, confidence, z) == cs[k];
  }

  /** Without noise (confidence 1) the exploit pick has the highest conversion rate among the
      candidates, a missing rate counting as 0. */
  lemma ZeroNoisePicksHighestRate(vs: seq<UIVariant>, identity: IdentityState, z: nat -> real)
    requires |vs| > 0
    ensures ExploitChoice(vs, identity, 1.0, z) in Candidates(vs, identity)
    ensures forall x :: x in Candidates(vs, identity) ==> ConversionRate(x) <= ConversionRate(ExploitChoice(vs, identity, 1.0, z))
  {
    var cs := Candidates(vs, identity);
    var scores := Samples(cs, 1.0, z);
    var k := BestIndex(scores);
    forall x | x in cs
      ensures ConversionRate(x) <= ConversionRate(cs[k])
    {
      var j :| 0 <= j < |cs| && cs[j] == x;
      assert scores[j] == ConversionRate(x);
    }
  }

  /** With an empty hero list only the two audit entries are added. */
  lemma NoVariantsOnlyLogs(s: SessionState, db: map<string, seq<UIVariant>>, d: Draws, timestamp: string)
    requires HeroVariants(db) == []
    ensures DecisionStep(s, db, d, timestamp).Ok?
    ensures var r := DecisionStep(s, db, d, timestamp).value;
      r == s.(auditLog := r.auditLog) && |r.auditLog| == |s.auditLog| + 2
      && r.outcomeMetrics.variantDecision == s.outcomeMetrics.variantDecision
      && r.lastVariantShown == s.lastVariantShown
  {
  }

  /** A successful decision selects an available variant, shows its id, explores exactly when
      the draw is below epsilon (factor 1, the picked position; otherwise factor 0, an exploit
      candidate), and carries the session's identity confidence. */
  lemma DecisionOutcome(s: SessionState, db: map<string, seq<UIVariant>>, d: Draws, timestamp: string)
    requires HeroVariants(db) != [] && DecisionStep(s, db, d, timestamp).Ok?
    ensures var r := DecisionStep(s, db, d, timestamp).value;
      var available := HeroVariants(db);
      && r.outcomeMetrics.variantDecision.Some?
      && var dec := r.outcomeMetrics.variantDecision.value;
      && dec.selectedVariant in available
      && r.lastVariantShown == Some(dec.selectedVariant.variantId)
      && dec.confidence == s.identityConfidence
      && (d.draw < Epsilon ==> dec.explorationFactor == 1.0 && dec.selectedVariant == available[d.pick % |available|])
      && (d.draw >= Epsilon ==>
            dec.explorationFactor == 0.0 && dec.selectedVariant == ExploitChoice(available, s.identityState.value, s.identityConfidence, d.z))
  {
    var available := HeroVariants(db);
    if d.draw >= Epsilon {
      assert ExploitChoice(available, s.identityState.value, s.identityConfidence, d.z) in Candidates(available, s.identityState.value);
    }
  }

  /** With variants to choose from, the decision fails exactly when the identity confidence lies
      outside [0,1] or an exploit step has no identity. */
  lemma DecisionFailure(s: SessionState, db: map<string, seq<UIVariant>>, d: Draws, timestamp: string)
    requires HeroVariants(db) != []
    ensures DecisionStep(s, db, d, timestamp).Err? <==>
      !InUnit(s.identityConfidence) || (d.draw >= Epsilon && s.identityState.None?)
    ensures d.draw >= Epsilon && s.identityState.None? ==> DecisionStep(s, db, d, timestamp) == Err(MissingIdentity)
  {
  }
}
