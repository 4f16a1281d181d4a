/** The session record passed between the agents, its events and its behavioural vector. */
module Events {
  import opened Wrappers
  import opened Common
  import opened Variants

  /** The event names the tracker may send. */
  datatype EventType =
    | PageViewed | ComponentViewed | ScrollDepthReached | TimeOnComponent | Click | Backtrack
    | AddToCart | ConversionCompleted | VariantShown
    | MouseHesitation | MouseIdleStart | MouseIdleEnd
    | ScrollDirectionChange | ScrollFast | ScrollPause
    | RageClick | DeadClick | RightClick | DoubleClick
    | Hover | HoverEnd
    | TabHidden | TabVisible | WindowBlur | WindowFocus
    | FieldFocus | FieldBlur | FieldPaste | FormSubmit
    | FirstInteraction | PageExitIntent | ExternalLinkClick | BackNavigation
    | ProductClick

  /** One tracked event. `timestamp` is in seconds; `properties` keeps the numeric entries of
      the source's property dictionary (the only ones the core reads). */
  datatype Event = Event(
    eventName: EventType,
    timestamp: int,
    sessionId: string,
    userId: Option<string>,
    componentId: Option<string>,
    properties: map<string, real>)

  /** The five behavioural features. */
  datatype BehavioralVector = BehavioralVector(
    explorationScore: real,
    hesitationScore: real,
    engagementDepth: real,
    decisionVelocity: real,
    contentFocusRatio: real)
  {
    /** Every feature satisfies the record's [0,1] field constraint. */
    predicate Valid()
    {
      InUnit(explorationScore) && InUnit(hesitationScore) && InUnit(engagementDepth)
      && InUnit(decisionVelocity) && InUnit(contentFocusRatio)
    }

    /** `to_dict`: the five features under their own names. */
    function ToDict(): (m: map<string, real>)
      ensures m.Keys == VectorKeys
      ensures m["exploration_score"] == explorationScore && m["hesitation_score"] == hesitationScore
      ensures m["engagement_depth"] == engagementDepth && m["decision_velocity"] == decisionVelocity
      ensures m["content_focus_ratio"] == contentFocusRatio
    {
      map["exploration_score" := explorationScore, "hesitation_score" := hesitationScore,
          "engagement_depth" := engagementDepth, "decision_velocity" := decisionVelocity,
          "content_focus_ratio" := contentFocusRatio]
    }
  }

  const VectorKeys: set<string> :=
    {"exploration_score", "hesitation_score", "engagement_depth", "decision_velocity", "content_focus_ratio"}

  /** Building a `BehavioralVector` from five numbers: validation fails when one of them lies
      outside [0,1]. */
  function MakeVector(e: real, h: real, g: real, d: real, f: real): (r: Option<BehavioralVector>)
    ensures r.Some? <==> InUnit(e) && InUnit(h) && InUnit(g) && InUnit(d) && InUnit(f)
    ensures r.Some? ==> r.value.Valid() && r.value == BehavioralVector(e, h, g, d, f)
  {
    var v := BehavioralVector(e, h, g, d, f);
    if v.Valid() then Some(v) else None
  }

  /** Rebuilding a vector from its dictionary form, as each agent does when it revalidates the
      session it receives: all five keys must be present and in range; other keys are ignored. */
  function VectorFromDict(m: map<string, real>): Option<BehavioralVector>
  {
    if VectorKeys <= m.Keys
    then MakeVector(m["exploration_score"], m["hesitation_score"], m["engagement_depth"],
                    m["decision_velocity"], m["content_focus_ratio"])
    else None
  }

  /** The dictionary form of a valid vector reads back as the same vector, and whatever reads
      back is valid. */
  lemma VectorDictRoundTrip(v: BehavioralVector, m: map<string, real>)
    ensures v.Valid() ==> VectorFromDict(v.ToDict()) == Some(v)
    ensures VectorFromDict(m).Some? ==> VectorFromDict(m).value.Valid()
    ensures VectorFromDict(m).Some? ==> VectorFromDict(m).value.ToDict() == m - (m.Keys - VectorKeys)
  {
    if VectorFromDict(m).Some? {
      var w := VectorFromDict(m).value;
      assert w.ToDict() == m - (m.Keys - VectorKeys);
    }
  }

  /** The closed set of identity labels. */
  datatype IdentityState =
    | Exploratory | Overwhelmed | ComparisonFocused | Confident | ReadyToDecide | Cautious | ImpulseBuyer
  {
    /** The label's string value. */
    function Value(): string
    {
      match this
      case Exploratory => "exploratory"
      case Overwhelmed => "overwhelmed"
      case ComparisonFocused => "comparison_focused"
      case Confident => "confident"
      case ReadyToDecide => "ready_to_decide"
      case Cautious => "cautious"
      case ImpulseBuyer => "impulse_buyer"
    }
  }

  const AllIdentityStates: seq<IdentityState> :=
    [Exploratory, Overwhelmed, ComparisonFocused, Confident, ReadyToDecide, Cautious, ImpulseBuyer]

  /** `IdentityState(s)`: the label whose value is s, or None where the source raises ValueError. */
  function ParseIdentityState(s: string): (r: Option<IdentityState>)
    ensures r.Some? ==> r.value.Value() == s
  {
    if s == "exploratory" then Some(Exploratory)
    else if s == "overwhelmed" then Some(Overwhelmed)
    else if s == "comparison_focused" then Some(ComparisonFocused)
    else if s == "confident" then Some(Confident)
    else if s == "ready_to_decide" then Some(ReadyToDecide)
    else if s == "cautious" then Some(Cautious)
    else if s == "impulse_buyer" then Some(ImpulseBuyer)
    else None
  }

  /** Exactly seven labels with seven distinct values, each of which parses back to its label. */
  lemma IdentityStatesClosed(x: IdentityState, s: string)
    ensures x in AllIdentityStates && |AllIdentityStates| == 7
    ensures ParseIdentityState(x.Value()) == Some(x)
    ensures ParseIdentityState(s).Some? <==> s in set y | y in AllIdentityStates :: y.Value()
    ensures forall i, j :: 0 <= i < j < 7 ==> AllIdentityStates[i].Value() != AllIdentityStates[j].Value()
  {
    if ParseIdentityState(s).Some? {
      var y := ParseIdentityState(s).value;
      assert y in AllIdentityStates;
    }
  }

  /** The values a stage writes under `outcome_metrics`: the selector's decision, the guardrail
      verdict, and whether a truthy "demographics" entry is present. */
  datatype OutcomeMetrics = OutcomeMetrics(
    variantDecision: Option<VariantDecision>,
    guardrailCheck: Option<GuardrailCheck>,
    demographics: bool)

  /** A value snapshot of a session. */
  datatype SessionState = SessionState(
    sessionId: string,
    userId: Option<string>,
    language: string,
    eventHistory: seq<Event>,
    behavioralVector: Option<BehavioralVector>,
    identityState: Option<IdentityState>,
    identityConfidence: real,
    lastVariantShown: Option<string>,
    outcomeMetrics: OutcomeMetrics,
    auditLog: seq<string>)

  /** The exceptions that can escape an agent: an out-of-range feature or decision rejected by
      record validation, and an exploit step run before any identity was set. */
  datatype StageError = InvalidBehavioralVector | InvalidDecision | MissingIdentity

  /** How long the event history may grow. */
  const MaxHistory: nat := 50

  /** An audit entry as `add_audit_entry` writes it: "[timestamp] entry". */
  function Stamp(timestamp: string, entry: string): (r: string)
    ensures |r| == |timestamp| + |entry| + 3
    ensures r[0] == '[' && r[|timestamp| + 1..|timestamp| + 3] == "] "
    ensures r[1..|timestamp| + 1] == timestamp && r[|timestamp| + 3..] == entry
  {
    "[" + timestamp + "] " + entry
  }

  /** A stage's effect on a session, given the value or the error its specification computes:
      on success the session holds the new value, on error it is left as it was. */
  ghost predicate Applied(r: Result<SessionState, StageError>, err: Option<StageError>,
                          before: SessionState, after: SessionState)
  {
    match r
    case Ok(s) => err == None && after == s
    case Err(e) => err == Some(e) && after == before
  }

  /** The session record the agents update in place. */
  class UserSession {
    var sessionId: string
    var userId: Option<string>
    var language: string
    var eventHistory: seq<Event>
    var behavioralVector: Option<BehavioralVector>
    var identityState: Option<IdentityState>
    var identityConfidence: real
    var lastVariantShown: Option<string>
    var outcomeMetrics: OutcomeMetrics
    var auditLog: seq<string>

    function Value(): SessionState
      reads this
    {
      SessionState(sessionId, userId, language, eventHistory, behavioralVector, identityState,
                   identityConfidence, lastVariantShown, outcomeMetrics, auditLog)
    }

    /** A new session: no events, no vector, no identity, confidence 0.0, language "en",
        nothing shown, no metrics and an empty audit log. */
    constructor (sessionId: string, userId: Option<string>)
      ensures Value() == SessionState(sessionId, userId, "en", [], None, None, 0.0, None,
                                      OutcomeMetrics(None, None, false), [])
    {
      this.sessionId := sessionId;
      this.userId := userId;
      language := "en";
      eventHistory := [];
      behavioralVector := None;
      identityState := None;
      identityConfidence := 0.0;
      lastVariantShown := None;
      outcomeMetrics := OutcomeMetrics(None, None, false);
      auditLog := [];
    }

    /** A session rebuilt from a stored state. */
    constructor FromState(s: SessionState)
      ensures Value() == s
    {
      sessionId := s.sessionId;
      userId := s.userId;
      language := s.language;
      eventHistory := s.eventHistory;
      behavioralVector := s.behavioralVector;
      identityState := s.identityState;
      identityConfidence := s.identityConfidence;
      lastVariantShown := s.lastVariantShown;
      outcomeMetrics := s.outcomeMetrics;
      auditLog := s.auditLog;
    }

    /** `add_event`: append, then keep only the most recent MaxHistory events. The history ends
        with the new event, has min(old length + 1, MaxHistory) entries, and is a suffix of the
        old history followed by the event. */
    method AddEvent(e: Event)
      modifies this
      ensures eventHistory == LastN(old(eventHistory) + [e], MaxHistory)
      ensures |eventHistory| == if |old(eventHistory)| + 1 < MaxHistory then |old(eventHistory)| + 1 else MaxHistory
      ensures eventHistory[|eventHistory| - 1] == e
      ensures Value() == old(Value()).(eventHistory := eventHistory)
    {
      eventHistory := eventHistory + [e];
      if |eventHistory| > MaxHistory {
        eventHistory := eventHistory[|eventHistory| - MaxHistory..];
      }
    }

    /** `add_audit_entry`: exactly one stamped entry is appended; earlier entries are unchanged. */
    method AddAuditEntry(timestamp: string, entry: string)
      modifies this
      ensures auditLog == old(auditLog) + [Stamp(timestamp, entry)]
      ensures Value() == old(Value()).(auditLog := auditLog)
    {
      auditLog := auditLog + [Stamp(timestamp, entry)];
    }
  }

  /** Adding events one by one keeps exactly the most recent MaxHistory of all events seen,
      in their original order, whatever the starting history. */
  lemma {:induction false} AddAllKeepsMostRecent(h: seq<Event>, es: seq<Event>)
    ensures AddAll(h, es) == if es == [] then h else LastN(h + es, MaxHistory)
    decreases |es|
  {
    if es != [] {
      var init, e := es[..|es| - 1], es[|es| - 1];
      assert h + es == (h + init) + [e];
      assert AddAll(h, es) == LastN(AddAll(h, init) + [e], MaxHistory);
      if init != [] {
        AddAllKeepsMostRecent(h, init);
        TruncateTwice(h + init, e, MaxHistory);
      } else {
        assert h + init == h;
      }
    }
  }

  /** Truncating before an append and truncating after it agree. */
  lemma TruncateTwice<T>(s: seq<T>, e: T, n: nat)
    requires n > 0
    ensures LastN(LastN(s, n) + [e], n) == LastN(s + [e], n)
  {
  }

  /** The history after adding each of `es` in order. */
  function AddAll(h: seq<Event>, es: seq<Event>): seq<Event>
    decreases |es|
  {
    if es == [] then h else LastN(AddAll(h, es[..|es| - 1]) + [es[|es| - 1]], MaxHistory)
  }
}
