/** The orchestration: four agents wired as a fixed linear graph that the session state flows
    through. */
module Workflow {
  import opened Wrappers
  import opened Common
  import opened Variants
  import opened Events
  import AnalyticsAgent
  import IdentityAgent
  import DecisionAgent
  import GuardrailAgent

  /** The graph's nodes; `End` is the terminal marker. */
  datatype Node = Analytics | Identity | Decision | Guardrail | End

  const EntryPoint: Node := Analytics

  /** The graph's only edges. */
  function Successor(n: Node): Node
    requires n != End
  {
    match n
    case Analytics => Identity
    case Identity => Decision
    case Decision => Guardrail
    case Guardrail => End
  }

  /** The number of stages left from a node; every edge lowers it by one. */
  function StagesLeft(n: Node): nat
  {
    match n
    case Analytics => 4
    case Identity => 3
    case Decision => 2
    case Guardrail => 1
    case End => 0
  }

  /** Everything outside the session a run consumes: the recency weights, the classifier's
      answer, the decision's random draws, and an audit timestamp per stage. */
  datatype Inputs = Inputs(
    weightOf: Event -> real,
    answer: IdentityAgent.ClassifierAnswer,
    draws: DecisionAgent.Draws,
    clock: Node -> string)

  /** One node's agent applied to the state. */
  ghost function RunNode(n: Node, s: SessionState, inputs: Inputs): Result<SessionState, StageError>
    requires n != End
  {
    match n
    case Analytics => AnalyticsAgent.AnalyticsStep(s, inputs.weightOf, inputs.clock(Analytics))
    case Identity => Ok(IdentityAgent.IdentityStep(s, inputs.answer, inputs.clock(Identity)))
    case Decision => DecisionAgent.DecisionStep(s, DecisionAgent.DemoVariants, inputs.draws, inputs.clock(Decision))
    case Guardrail => Ok(GuardrailAgent.GuardrailStep(s, inputs.clock(Guardrail)))
  }

  /** The compiled graph invoked from a node: run it and follow its edge until END; a stage that
      raises ends the run. */
  ghost function RunFrom(n: Node, s: SessionState, inputs: Inputs): Result<SessionState, StageError>
    decreases StagesLeft(n)
  {
    if n == End then Ok(s)
    else
      match RunNode(n, s, inputs)
      case Err(e) => Err(e)
      case Ok(next) => RunFrom(Successor(n), next, inputs)
  }

  /** `process_session`: invoke the graph from its entry point. */
  ghost function ProcessSession(s: SessionState, inputs: Inputs): Result<SessionState, StageError>
  {
    RunFrom(EntryPoint, s, inputs)
  }

  /** `get_agent_communication_log` of a finished run. */
  function CommunicationLog(finalState: SessionState): seq<string>
  {
    finalState.auditLog
  }

  /** The nodes visited from n, in order, up to END. */
  function Path(n: Node): seq<Node>
    decreases StagesLeft(n)
  {
    if n == End then [] else [n] + Path(Successor(n))
  }

  // ----- Lemmas -----

  /** From the entry point the run visits analytics, identity, decision and guardrail, each once,
      and every edge moves one stage closer to END. */
  lemma GraphIsLinear()
    ensures Path(EntryPoint) == [Analytics, Identity, Decision, Guardrail]
    ensures forall n :: n != End ==> StagesLeft(Successor(n)) == StagesLeft(n) - 1
  {
  }

  /** From the guardrail node the run is the guardrail stage. */
  lemma RunFromGuardrail(s3: SessionState, inputs: Inputs)
    ensures RunFrom(Guardrail, s3, inputs) == Ok(GuardrailAgent.GuardrailStep(s3, inputs.clock(Guardrail)))
  {
    assert RunNode(Guardrail, s3, inputs) == Ok(GuardrailAgent.GuardrailStep(s3, inputs.clock(Guardrail)));
  }

  /** From the decision node the run is the decision stage, then the guardrail stage. */
  lemma RunFromDecision(s2: SessionState, inputs: Inputs)
    ensures RunFrom(Decision, s2, inputs) ==
      match DecisionAgent.DecisionStep(s2, DecisionAgent.DemoVariants, inputs.draws, inputs.clock(Decision))
      case Err(e) => Err(e)
      case Ok(s3) => Ok(GuardrailAgent.GuardrailStep(s3, inputs.clock(Guardrail)))
  {
    match DecisionAgent.DecisionStep(s2, DecisionAgent.DemoVariants, inputs.draws, inputs.clock(Decision))
    case Err(e) =>
    case Ok(s3) => RunFromGuardrail(s3, inputs);
  }

  /** From the identity node the run is the identity stage, then the rest. */
  lemma RunFromIdentity(s1: SessionState, inputs: Inputs)
    ensures RunFrom(Identity, s1, inputs) == RunFrom(Decision, IdentityAgent.IdentityStep(s1, inputs.answer, inputs.clock(Identity)), inputs)
  {
    assert RunNode(Identity, s1, inputs) == Ok(IdentityAgent.IdentityStep(s1, inputs.answer, inputs.clock(Identity)));
  }

  /** The graph run is the four stages applied in order, each to the previous one's output. */
  lemma ProcessSessionComposesStages(s: SessionState, inputs: Inputs)
    ensures ProcessSession(s, inputs) ==
      match AnalyticsAgent.AnalyticsStep(s, inputs.weightOf, inputs.clock(Analytics))
      case Err(e) => Err(e)
      case Ok(s1) =>
        var s2 := IdentityAgent.IdentityStep(s1, inputs.answer, inputs.clock(Identity));
        match DecisionAgent.DecisionStep(s2, DecisionAgent.DemoVariants, inputs.draws, inputs.clock(Decision))
        case Err(e) => Err(e)
        case Ok(s3) => Ok(GuardrailAgent.GuardrailStep(s3, inputs.clock(Guardrail)))
  {
    assert RunNode(Analytics, s, inputs) == AnalyticsAgent.AnalyticsStep(s, inputs.weightOf, inputs.clock(Analytics));
    match AnalyticsAgent.AnalyticsStep(s, inputs.weightOf, inputs.clock(Analytics))
    case Err(e) =>
    case Ok(s1) =>
      RunFromIdentity(s1, inputs);
      RunFromDecision(IdentityAgent.IdentityStep(s1, inputs.answer, inputs.clock(Identity)), inputs);
  }

  /** Recency weights and component times that are never negative. */
  ghost predicate WellFormedHistory(s: SessionState, inputs: Inputs)
  {
    && (forall i :: 0 <= i < |s.eventHistory| ==> inputs.weightOf(s.eventHistory[i]) >= 0.0)
    && (forall i :: 0 <= i < |s.eventHistory| ==> s.eventHistory[i].eventName == TimeOnComponent ==>
          AnalyticsAgent.TimeSeconds(s.eventHistory[i]) >= 0.0)
  }

  /** With a well-formed history the analytics stage succeeds, stores a vector and adds its two
      audit lines. */
  lemma AnalyticsStageSucceeds(s: SessionState, inputs: Inputs)
    requires WellFormedHistory(s, inputs)
    ensures AnalyticsAgent.AnalyticsStep(s, inputs.weightOf, inputs.clock(Analytics)).Ok?
    ensures var s1 := AnalyticsAgent.AnalyticsStep(s, inputs.weightOf, inputs.clock(Analytics)).value;
      s1.behavioralVector.Some? && s1.outcomeMetrics == s.outcomeMetrics
      && s1.auditLog == s.auditLog + [Stamp(inputs.clock(Analytics), AnalyticsAgent.StartEntry(|s.eventHistory|)),
                                      Stamp(inputs.clock(Analytics), AnalyticsAgent.DoneEntry)]
  {
    AnalyticsAgent.VectorAlwaysValid(s.eventHistory, inputs.weightOf);
  }

  /** Over the demo catalogue, a session with an identity and a confidence in [0,1] always gets a
      decision: a demo variant, which is a hero headline without price or discount. */
  lemma DemoDecisionSucceeds(s2: SessionState, d: DecisionAgent.Draws, timestamp: string)
    requires s2.identityState.Some? && InUnit(s2.identityConfidence)
    ensures DecisionAgent.DecisionStep(s2, DecisionAgent.DemoVariants, d, timestamp).Ok?
    ensures var s3 := DecisionAgent.DecisionStep(s2, DecisionAgent.DemoVariants, d, timestamp).value;
      && s3.identityState == s2.identityState && s3.behavioralVector == s2.behavioralVector
      && s3.outcomeMetrics.variantDecision.Some?
      && var v := s3.outcomeMetrics.variantDecision.value.selectedVariant;
      && v in DecisionAgent.HeroVariants(DecisionAgent.DemoVariants)
      && v.componentId == "hero" && v.variantType == "headline" && "price" !in v.content && "discount" !in v.content
      && s3.lastVariantShown == Some(v.variantId)
      && |s3.auditLog| == |s2.auditLog| + 2 && s3.auditLog[..|s2.auditLog|] == s2.auditLog
  {
    DecisionAgent.DemoVariantsAreHeroHeadlines();
    DecisionAgent.DecisionFailure(s2, DecisionAgent.DemoVariants, d, timestamp);
    DecisionAgent.DecisionOutcome(s2, DecisionAgent.DemoVariants, d, timestamp);
  }

  /** When analytics and decision both succeed, the run ends with the guardrail verdict on the
      decision's output. */
  lemma RunSucceeds(s: SessionState, inputs: Inputs, s1: SessionState, s3: SessionState)
    requires AnalyticsAgent.AnalyticsStep(s, inputs.weightOf, inputs.clock(Analytics)) == Ok(s1)
    requires DecisionAgent.DecisionStep(IdentityAgent.IdentityStep(s1, inputs.answer, inputs.clock(Identity)),
               DecisionAgent.DemoVariants, inputs.draws, inputs.clock(Decision)) == Ok(s3)
    ensures ProcessSession(s, inputs) == Ok(GuardrailAgent.GuardrailStep(s3, inputs.clock(Guardrail)))
  {
    ProcessSessionComposesStages(s, inputs);
  }

  /** The stage outputs of a run over a well-formed history. */
  ghost function Stages(s: SessionState, inputs: Inputs): (r: (SessionState, SessionState, SessionState))
    requires WellFormedHistory(s, inputs)
    ensures AnalyticsAgent.AnalyticsStep(s, inputs.weightOf, inputs.clock(Analytics)) == Ok(r.0)
    ensures r.1 == IdentityAgent.IdentityStep(r.0, inputs.answer, inputs.clock(Identity))
    ensures DecisionAgent.DecisionStep(r.1, DecisionAgent.DemoVariants, inputs.draws, inputs.clock(Decision)) == Ok(r.2)
    ensures ProcessSession(s, inputs) == Ok(GuardrailAgent.GuardrailStep(r.2, inputs.clock(Guardrail)))
  {
    AnalyticsStageSucceeds(s, inputs);
    var s1 := AnalyticsAgent.AnalyticsStep(s, inputs.weightOf, inputs.clock(Analytics)).value;
    var s2 := IdentityAgent.IdentityStep(s1, inputs.answer, inputs.clock(Identity));
    DemoDecisionSucceeds(s2, inputs.draws, inputs.clock(Decision));
    var s3 := DecisionAgent.DecisionStep(s2, DecisionAgent.DemoVariants, inputs.draws, inputs.clock(Decision)).value;
    RunSucceeds(s, inputs, s1, s3);
    (s1, s2, s3)
  }

  /** With a well-formed history the whole pipeline over the demo catalogue succeeds, shows a demo
      variant, and is approved by the guardrails. */
  lemma DemoPipelineApproved(s: SessionState, inputs: Inputs)
    requires WellFormedHistory(s, inputs)
    ensures ProcessSession(s, inputs).Ok?
    ensures var r := ProcessSession(s, inputs).value;
      && r.outcomeMetrics.guardrailCheck == Some(GuardrailCheck(true, "All checks passed", []))
      && r.outcomeMetrics.variantDecision.Some?
      && r.outcomeMetrics.variantDecision.value.selectedVariant in DecisionAgent.HeroVariants(DecisionAgent.DemoVariants)
      && r.lastVariantShown == Some(r.outcomeMetrics.variantDecision.value.selectedVariant.variantId)
      && r.identityState.Some?
  {
    var (s1, s2, s3) := Stages(s, inputs);
    AnalyticsStageSucceeds(s, inputs);
    DemoDecisionSucceeds(s2, inputs.draws, inputs.clock(Decision));
    GuardrailAgent.CleanDecisionApproved(s3);
  }

  /** The analytics stage adds its opening line and its closing line. */
  lemma AnalyticsLog(s: SessionState, inputs: Inputs, s1: SessionState)
    requires AnalyticsAgent.AnalyticsStep(s, inputs.weightOf, inputs.clock(Analytics)) == Ok(s1)
    ensures s1.auditLog == s.auditLog + [Stamp(inputs.clock(Analytics), AnalyticsAgent.StartEntry(|s.eventHistory|)),
                                         Stamp(inputs.clock(Analytics), AnalyticsAgent.DoneEntry)]
  {
  }

  /** The identity stage's pair opens with its first line. */
  lemma IdentityLog(s1: SessionState, inputs: Inputs)
    ensures IdentityAgent.IdentityStep(s1, inputs.answer, inputs.clock(Identity)).auditLog[|s1.auditLog|]
      == Stamp(inputs.clock(Identity), IdentityAgent.StartEntry)
  {
  }

  /** Four stages that each extend the log by two entries leave the first log as a prefix and
      every stage's entries in place. */
  lemma LogChain(l0: seq<string>, l1: seq<string>, l2: seq<string>, l3: seq<string>, l4: seq<string>)
    requires |l1| == |l0| + 2 && l1[..|l0|] == l0
    requires |l2| == |l1| + 2 && l2[..|l1|] == l1
    requires |l3| == |l2| + 2 && l3[..|l2|] == l2
    requires |l4| == |l3| + 2 && l4[..|l3|] == l3
    ensures |l4| == |l0| + 8 && l4[..|l0|] == l0
    ensures l4[|l0|] == l1[|l0|] && l4[|l0| + 2] == l2[|l0| + 2] && l4[|l0| + 6] == l4[|l3|]
  {
    var n := |l0|;
    assert l4[n] == l3[n] == l2[n] == l1[n];
    assert l4[n + 2] == l3[n + 2] == l2[n + 2];
    assert l4[..n] == l3[..n] == l2[..n] == l1[..n];
  }

  /** Over a well-formed history the communication log is the initial log followed by two entries
      per stage, each stage's pair opening with that stage's first line. */
  lemma DemoPipelineLog(s: SessionState, inputs: Inputs)
    requires WellFormedHistory(s, inputs)
    ensures ProcessSession(s, inputs).Ok?
    ensures var log, n := CommunicationLog(ProcessSession(s, inputs).value), |s.auditLog|;
      && |log| == n + 8 && log[..n] == s.auditLog
      && log[n] == Stamp(inputs.clock(Analytics), AnalyticsAgent.StartEntry(|s.eventHistory|))
      && log[n + 2] == Stamp(inputs.clock(Identity), IdentityAgent.StartEntry)
      && log[n + 6] == Stamp(inputs.clock(Guardrail), GuardrailAgent.StartEntry)
  {
    var (s1, s2, s3) := Stages(s, inputs);
    AnalyticsLog(s, inputs, s1);
    IdentityLog(s1, inputs);
    DemoDecisionSucceeds(s2, inputs.draws, inputs.clock(Decision));
    var r := GuardrailAgent.GuardrailStep(s3, inputs.clock(Guardrail));
    assert r.auditLog == s3.auditLog + [Stamp(inputs.clock(Guardrail), GuardrailAgent.StartEntry),
                                        Stamp(inputs.clock(Guardrail), GuardrailAgent.FinalEntry(GuardrailAgent.Violations(s3)))];
    LogChain(s.auditLog, s1.auditLog, s2.auditLog, s3.auditLog, r.auditLog);
  }

  /** As written, a classifier answer "confident" with confidence 85 is stored unchanged, and the
      decision stage then cannot build its record: the run fails. */
  lemma AsWrittenOutOfRangeConfidenceFails(s: SessionState, v: BehavioralVector, d: DecisionAgent.Draws, timestamp: string)
    ensures var i := IdentityAgent.InterpretAsWritten(v, IdentityAgent.Answer("confident", 85.0, ""));
      var s2 := s.(behavioralVector := Some(v), identityState := Some(i.state), identityConfidence := i.confidence);
      DecisionAgent.DecisionStep(s2, DecisionAgent.DemoVariants, d, timestamp) == Err(InvalidDecision)
  {
    IdentityAgent.AsWrittenKeepsOutOfRangeConfidence(v);
    var i := IdentityAgent.InterpretAsWritten(v, IdentityAgent.Answer("confident", 85.0, ""));
    var s2 := s.(behavioralVector := Some(v), identityState := Some(i.state), identityConfidence := i.confidence);
    DecisionAgent.DemoVariantsAreHeroHeadlines();
    DecisionAgent.DecisionFailure(s2, DecisionAgent.DemoVariants, d, timestamp);
    assert DecisionAgent.HeroVariants(DecisionAgent.DemoVariants) != [];
  }
}
