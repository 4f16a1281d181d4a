/** The single-tenant server's demo path: a rule-based stand-in for the agent pipeline that
    counts events by name, turns counts into capped scores, runs a twelve-rule chain and looks up
    a variant; and the loading of a user's stored session. */
module ServerIntegrated {
  import opened Wrappers
  import opened Common
  import opened Text
  import opened Events
  import opened ServerData

  /** The name scan as written calls `.lower()` on the stored value itself, which only a string
      has; None stands for the AttributeError any other value raises. */
  function NameTextAsWritten(f: NameField): Option<string>
  {
    match f
    case Absent => Some("")
    case NameStr(s) => Some(s)
    case NameNull => None
    case NameOther(_) => None
  }

  /** The event counts the classifier starts from. */
  datatype Counts = Counts(
    total: nat, scroll: nat, click: nat, backtrack: nat, time: nat,
    rage: nat, dead: nat, mouseHesitation: nat, directionChanges: nat,
    fastScrolls: nat, hover: nat, tabHidden: nat, mouseIdle: nat)

  function Bit(b: bool): nat
  {
    if b then 1 else 0
  }

  /** One event's contribution: substring tests on the lower-cased name, exact tests on the name. */
  function Tally(c: Counts, e: RawEvent): Counts
  {
    var t := Lower(NameText(e.eventName));
    var f := e.eventName;
    Counts(
      c.total + 1,
      c.scroll + Bit(Contains(t, "scroll")),
      c.click + Bit(Contains(t, "click")),
      c.backtrack + Bit(Contains(t, "backtrack")),
      c.time + Bit(Contains(t, "time")),
      c.rage + Bit(f == NameStr("rage_click")),
      c.dead + Bit(f == NameStr("dead_click")),
      c.mouseHesitation + Bit(f == NameStr("mouse_hesitation")),
      c.directionChanges + Bit(f == NameStr("scroll_direction_change")),
      c.fastScrolls + Bit(f == NameStr("scroll_fast")),
      c.hover + Bit(f == NameStr("hover")),
      c.tabHidden + Bit(f == NameStr("tab_hidden")),
      c.mouseIdle + Bit(f == NameStr("mouse_idle_start")))
  }

  const NoCounts: Counts := Counts(0, 0, 0, 0, 0, 0, 0, 0, 0, 0, 0, 0, 0)

  predicate Bounded(c: Counts)
  {
    && c.scroll <= c.total && c.click <= c.total && c.backtrack <= c.total && c.time <= c.total
    && c.rage <= c.total && c.dead <= c.total && c.mouseHesitation <= c.total
    && c.directionChanges <= c.total && c.fastScrolls <= c.total && c.hover <= c.total
    && c.tabHidden <= c.total && c.mouseIdle <= c.total
  }

  /** The counts over a history: `total` is its length and no count exceeds it. */
  function CountsOf(h: seq<RawEvent>): (c: Counts)
    ensures c.total == |h| && Bounded(c)
  {
    if h == [] then NoCounts else Tally(CountsOf(h[..|h| - 1]), h[|h| - 1])
  }

  /** The derived behavioural signals. */
  datatype Scores = Scores(
    exploration: real, hesitation: real, engagement: real, velocity: real,
    frustration: real, distraction: real, skimming: real)
  {
    predicate Valid()
    {
      InUnit(exploration) && InUnit(hesitation) && InUnit(engagement) && InUnit(velocity)
      && InUnit(frustration) && InUnit(distraction) && InUnit(skimming)
    }
  }

  /** Every score is `min(1, n / k)` for a count n and a positive constant k. */
  function ScoresOf(c: Counts): (s: Scores)
    ensures s.Valid()
  {
    Scores(
      Min(1.0, (c.scroll + c.directionChanges) as real / 8.0),
      Min(1.0, (c.backtrack + c.mouseHesitation + c.directionChanges) as real / 6.0),
      Min(1.0, (c.click + c.hover) as real / 6.0),
      Min(1.0, c.total as real / 10.0),
      Min(1.0, (c.rage * 2 + c.dead) as real / 5.0),
      Min(1.0, (c.tabHidden + c.mouseIdle) as real / 4.0),
      Min(1.0, c.fastScrolls as real / 3.0))
  }

  /** A label, its confidence, and the extra audit line some rules write. */
  datatype Classification = Classification(state: IdentityState, confidence: real, note: Option<string>)

  /** The twelve rules, first match wins. */
  function Classify(c: Counts, s: Scores): (k: Classification)
    ensures 0.55 <= k.confidence <= 0.85
  {
    if s.frustration > 0.4 then
      Classification(Overwhelmed, 0.85, Some("Identity Agent: Detected frustration signals (rage_clicks="
        + NatToString(c.rage) + ", dead_clicks=" + NatToString(c.dead) + ")"))
    else if s.hesitation > 0.5 && s.exploration > 0.4 then Classification(Overwhelmed, 0.75, None)
    else if s.skimming > 0.5 && s.engagement < 0.3 then
      Classification(ImpulseBuyer, 0.80, Some("Identity Agent: Detected skimming behavior (fast_scrolls="
        + NatToString(c.fastScrolls) + ")"))
    else if s.velocity > 0.6 && s.hesitation < 0.2 then Classification(Confident, 0.82, None)
    else if s.engagement > 0.5 && c.directionChanges > 2 then
      Classification(ComparisonFocused, 0.78, Some("Identity Agent: Detected comparison behavior (direction_changes="
        + NatToString(c.directionChanges) + ")"))
    else if s.engagement > 0.5 && s.exploration > 0.3 then Classification(ComparisonFocused, 0.70, None)
    else if s.velocity > 0.7 && s.engagement < 0.3 then Classification(ImpulseBuyer, 0.78, None)
    else if s.distraction > 0.4 then
      Classification(Cautious, 0.72, Some("Identity Agent: Detected distraction signals (tab_hidden="
        + NatToString(c.tabHidden) + ")"))
    else if s.exploration > 0.5 then Classification(Exploratory, 0.68, None)
    else if s.hesitation > 0.3 || c.mouseHesitation > 2 then Classification(Cautious, 0.65, None)
    else if s.engagement > 0.6 && s.velocity > 0.5 then Classification(ReadyToDecide, 0.75, None)
    else Classification(Exploratory, 0.55, None)
  }

  /** A content value: a string, or a list of strings. */
  datatype ContentValue = Str(s: string) | StrList(items: seq<string>)

  datatype MockVariant = MockVariant(variantId: string, content: map<string, ContentValue>)

  /** The variant table, one entry per identity label; every label has one, so the table's
      fallback to the exploratory entry is never taken. */
  function VariantFor(x: IdentityState): MockVariant
  {
    match x
    case Confident => MockVariant("hero_confident_v1", map[
        "headline" := Str("Premium Tech at Your Fingertips"), "subheadline" := Str("Fast, reliable shipping on all orders"),
        "cta_text" := Str("Shop Now"), "urgency" := Str("high")])
    case Exploratory => MockVariant("hero_exploratory_v1", map[
        "headline" := Str("Discover Premium Electronics"), "subheadline" := Str("Browse our curated collection of the latest tech"),
        "cta_text" := Str("Browse Collection"), "urgency" := Str("low")])
    case Overwhelmed => MockVariant("hero_overwhelmed_v1", map[
        "headline" := Str("Not Sure What You Need?"), "subheadline" := Str("We've picked our top 4 best-sellers just for you"),
        "cta_text" := Str("See Our Picks"), "urgency" := Str("medium")])
    case ComparisonFocused => MockVariant("hero_comparison_v1", map[
        "headline" := Str("Compare Features & Specs"), "subheadline" := Str("Find the perfect match for your needs"),
        "cta_text" := Str("Compare Products"), "urgency" := Str("low")])
    case Cautious => MockVariant("hero_cautious_v1", map[
        "headline" := Str("Shop Risk-Free with 30-Day Returns"),
        "subheadline" := Str("Trusted by 10,000+ customers, secure checkout guaranteed"),
        "cta_text" := Str("Shop Safely"), "urgency" := Str("medium"),
        "trust_badges" := StrList(["30-day returns", "Secure checkout", "10k+ reviews"])])
    case ImpulseBuyer => MockVariant("hero_impulse_v1", map[
        "headline" := Str("FLASH SALE - 40% OFF!"), "subheadline" := Str("Limited time only! Ends in 3 hours"),
        "cta_text" := Str("Shop Sale Now"), "urgency" := Str("extreme"), "countdown" := Str("3:00:00")])
    case ReadyToDecide => MockVariant("hero_ready_v1", map[
        "headline" := Str("Complete Your Order Today"), "subheadline" := Str("Free shipping on orders over $50"),
        "cta_text" := Str("View Cart"), "urgency" := Str("high")])
  }

  /** How numbers are rendered: the `:.2f` text of a score, and `round(x, 3)`. */
  datatype Rendering = Rendering(fixed2: real -> string, round3: real -> real)

  datatype EventSummary = EventSummary(
    totalEvents: nat, scrollEvents: nat, clickEvents: nat, rageClicks: nat, deadClicks: nat,
    mouseHesitations: nat, hoverEvents: nat, tabHiddenEvents: nat)

  /** The response body of the demo path. */
  datatype MockResult = MockResult(
    status: string, variantId: string, content: map<string, ContentValue>,
    identityState: string, confidence: real, auditLog: seq<string>,
    vector: Scores, contentFocusRatio: real, summary: EventSummary)

  function AnalyticsLines(c: Counts, s: Scores, r: Rendering): seq<string>
  {
    ["Analytics Agent: Computed behavioral vector from " + NatToString(c.total) + " events",
     "Analytics Agent: exploration=" + r.fixed2(s.exploration) + ", hesitation=" + r.fixed2(s.hesitation)
       + ", engagement=" + r.fixed2(s.engagement),
     "Analytics Agent: frustration=" + r.fixed2(s.frustration) + ", distraction=" + r.fixed2(s.distraction)
       + ", skimming=" + r.fixed2(s.skimming)]
  }

  function IdentityLine(k: Classification, r: Rendering): string
  {
    "Identity Agent: Identified user as " + k.state.Value() + " (confidence=" + r.fixed2(k.confidence) + ")"
  }

  function DecisionLine(v: MockVariant, state: string): string
  {
    "Decision Agent: Selected '" + v.variantId + "' for " + state + " user"
  }

  const GuardrailLine: string := "Guardrail Agent: Decision validated - no privacy concerns detected"

  function Rounded(s: Scores, r: Rendering): Scores
  {
    Scores(r.round3(s.exploration), r.round3(s.hesitation), r.round3(s.engagement), r.round3(s.velocity),
           r.round3(s.frustration), r.round3(s.distraction), r.round3(s.skimming))
  }

  function SummaryOf(c: Counts): EventSummary
  {
    EventSummary(c.total, c.scroll, c.click, c.rage, c.dead, c.mouseHesitation, c.hover, c.tabHidden)
  }

  /** The audit log: analytics lines, the rule's note if any, then one line per later agent. */
  function MockLog(c: Counts, s: Scores, k: Classification, v: MockVariant, r: Rendering): (log: seq<string>)
    ensures 6 <= |log| <= 7 && (|log| == 7 <==> k.note.Some?)
    ensures log[..3] == AnalyticsLines(c, s, r)
    ensures log[|log| - 3] == IdentityLine(k, r)
    ensures log[|log| - 2] == DecisionLine(v, k.state.Value())
    ensures log[|log| - 1] == GuardrailLine
  {
    AnalyticsLines(c, s, r) + (if k.note.Some? then [k.note.value] else [])
      + [IdentityLine(k, r), DecisionLine(v, k.state.Value()), GuardrailLine]
  }

  /** The response `mock_process_session` builds for a history. */
  function MockOutcome(h: seq<RawEvent>, r: Rendering): MockResult
  {
    var c := CountsOf(h);
    var s := ScoresOf(c);
    var k := Classify(c, s);
    var v := VariantFor(k.state);
    var log := MockLog(c, s, k, v, r);
    MockResult("optimized", v.variantId, v.content, k.state.Value(), k.confidence, log,
               Rounded(s, r), 0.5, SummaryOf(c))
  }

  /** `mock_process_session`: the counts and scores are computed, then the audit log is built
      line by line. The component id is accepted and not used. */
  method MockProcessSession(h: seq<RawEvent>, componentId: string, r: Rendering) returns (result: MockResult)
    ensures result == MockOutcome(h, r)
  {
    var c := CountsOf(h);
    var s := ScoresOf(c);
    var auditLog: seq<string> := AnalyticsLines(c, s, r);
    var k := Classify(c, s);
    if k.note.Some? {
      auditLog := auditLog + [k.note.value];
    }
    auditLog := auditLog + [IdentityLine(k, r)];
    var v := VariantFor(k.state);
    auditLog := auditLog + [DecisionLine(v, k.state.Value())];
    auditLog := auditLog + [GuardrailLine];
    result := MockResult("optimized", v.variantId, v.content, k.state.Value(), k.confidence, auditLog,
                         Rounded(s, r), 0.5, SummaryOf(c));
  }

  /** `get_or_create_session`: the stored session with only its dictionary events, or a new one. */
  function LoadOrCreate(user: Option<UserDoc>, userId: string, uuidHex: string): SessionDoc
  {
    if user.Some? && user.value.lastSession.Some? then
      var s := user.value.lastSession.value;
      var items := if s.eventHistory.Some? then s.eventHistory.value else [];
      s.(eventHistory := Some(AsItems(DictsOnly(items))))
    else NewSession(None, userId, uuidHex)
  }

  method GetOrCreateSession(user: Option<UserDoc>, userId: string, uuidHex: string) returns (session: SessionDoc)
    ensures session == LoadOrCreate(user, userId, uuidHex)
  {
    if user.Some? && user.value.lastSession.Some? {
      session := user.value.lastSession.value;
      if session.eventHistory.None? {
        session := session.(eventHistory := Some([]));
      }
      var clean := CleanHistory(session.eventHistory.value);
      session := session.(eventHistory := Some(AsItems(clean)));
      return;
    }
    session := NewSession(None, userId, uuidHex);
  }

  /** How the batch endpoint stores an event: `event_data.get("event_name")`, None when missing. */
  function BatchStoredEvent(sentName: NameField): RawEvent
  {
    RawEvent(if sentName.Absent? then NameNull else sentName)
  }

  /** The name scan as written raises on this history. */
  predicate ScanRaisesAsWritten(h: seq<RawEvent>)
  {
    exists i :: 0 <= i < |h| && NameTextAsWritten(h[i].eventName).None?
  }

  // ----- Lemmas -----

  /** The first rule wins: two rage clicks, or three dead clicks, or any mix weighing more than
      0.4, make the user overwhelmed at 0.85, whatever else happened. */
  lemma FrustrationWins(h: seq<RawEvent>, r: Rendering)
    ensures var c := CountsOf(h);
      ScoresOf(c).frustration > 0.4 <==> c.rage * 2 + c.dead > 2
    ensures CountsOf(h).rage * 2 + CountsOf(h).dead > 2 ==>
      MockOutcome(h, r).identityState == "overwhelmed" && MockOutcome(h, r).confidence == 0.85
  {
  }

  /** An empty history falls through every rule to exploratory at 0.55. */
  lemma EmptyHistoryIsExploratory(r: Rendering)
    ensures MockOutcome([], r).identityState == "exploratory"
    ensures MockOutcome([], r).confidence == 0.55
    ensures MockOutcome([], r).variantId == "hero_exploratory_v1"
    ensures |MockOutcome([], r).auditLog| == 6
  {
    var c := CountsOf([]);
    assert c == NoCounts;
  }

  /** The summary counts the whole history, the confidence lies in [0.55, 0.85], and the focus
      ratio is fixed at 0.5. */
  lemma MockResponseShape(h: seq<RawEvent>, r: Rendering)
    ensures MockOutcome(h, r).summary.totalEvents == |h|
    ensures 0.55 <= MockOutcome(h, r).confidence <= 0.85
    ensures MockOutcome(h, r).contentFocusRatio == 0.5
    ensures MockOutcome(h, r).auditLog[..3] == AnalyticsLines(CountsOf(h), ScoresOf(CountsOf(h)), r)
  {
  }

  /** A batch event sent without a name is stored with a None name, and the as-written scan raises
      on any history holding it. */
  lemma UnnamedBatchEventBreaksScan(h: seq<RawEvent>)
    requires BatchStoredEvent(Absent) in h
    ensures ScanRaisesAsWritten(h)
  {
    var i :| 0 <= i < |h| && h[i] == BatchStoredEvent(Absent);
    assert NameTextAsWritten(h[i].eventName).None?;
  }

  /** The `str()` scan agrees with the as-written one wherever that one runs. */
  lemma CorrectedScanAgrees(f: NameField)
    ensures NameTextAsWritten(f).Some? ==> NameTextAsWritten(f).value == NameText(f)
  {
  }

  /** The lower-cased text of a None name holds none of the scanned substrings. */
  lemma NoneTextMatchesNothing()
    ensures var t := Lower(NameText(NameNull));
      !Contains(t, "scroll") && !Contains(t, "click") && !Contains(t, "backtrack") && !Contains(t, "time")
  {
    var t := Lower(NameText(NameNull));
    assert |t| == 4 && t[0] == LowerChar('N') == 'n';
    assert t[..4][0] != "time"[0];
    assert !Contains(t[1..], "time");
  }

  /** A single event no rule names counts only towards the total. */
  lemma UnmatchedEventCountsOnlyTotal(e: RawEvent)
    requires !e.eventName.NameStr?
    requires var t := Lower(NameText(e.eventName));
      !Contains(t, "scroll") && !Contains(t, "click") && !Contains(t, "backtrack") && !Contains(t, "time")
    ensures CountsOf([e]) == NoCounts.(total := 1)
  {
    assert [e][..0] == [];
  }

  /** An event stored with a None name counts only towards the total. */
  lemma NoneNameCountsOnlyTotal()
    ensures CountsOf([BatchStoredEvent(Absent)]) == NoCounts.(total := 1)
  {
    NoneTextMatchesNothing();
    UnmatchedEventCountsOnlyTotal(RawEvent(NameNull));
  }

  /** A one-event history no rule names is classified as exploratory at 0.55. */
  lemma LoneUnmatchedEventIsExploratory(h: seq<RawEvent>, r: Rendering)
    requires CountsOf(h) == NoCounts.(total := 1)
    ensures MockOutcome(h, r).identityState == "exploratory"
    ensures MockOutcome(h, r).confidence == 0.55
  {
    LoneScores();
    LoneClassification();
  }

  /** The scores of one unmatched event: only velocity moves. */
  lemma LoneScores()
    ensures ScoresOf(NoCounts.(total := 1)) == Scores(0.0, 0.0, 0.0, 0.1, 0.0, 0.0, 0.0)
  {
  }

  /** Those scores fall through every rule. */
  lemma LoneClassification()
    ensures Classify(NoCounts.(total := 1), Scores(0.0, 0.0, 0.0, 0.1, 0.0, 0.0, 0.0)).state == Exploratory
    ensures Classify(NoCounts.(total := 1), Scores(0.0, 0.0, 0.0, 0.1, 0.0, 0.0, 0.0)).confidence == 0.55
  {
  }

  /** With the `str()` scan, the history the as-written scan fails on is classified as exploratory. */
  lemma CorrectedScanClassifiesUnnamedEvent(r: Rendering)
    ensures MockOutcome([BatchStoredEvent(Absent)], r).identityState == "exploratory"
    ensures MockOutcome([BatchStoredEvent(Absent)], r).confidence == 0.55
  {
    NoneNameCountsOnlyTotal();
    LoneUnmatchedEventIsExploratory([BatchStoredEvent(Absent)], r);
  }

  /** A loaded session keeps exactly its dictionary events, in order, and nothing else of it
      changes; a new session is empty, unidentified and in English. */
  lemma LoadedSessionShape(user: Option<UserDoc>, userId: string, uuidHex: string)
    ensures var s := LoadOrCreate(user, userId, uuidHex);
      s.eventHistory.Some? && forall i :: 0 <= i < |s.eventHistory.value| ==> s.eventHistory.value[i].DictItem?
    ensures !(user.Some? && user.value.lastSession.Some?) ==>
      var s := LoadOrCreate(user, userId, uuidHex);
      s.eventHistory == Some([]) && s.identityState == None && s.identityConfidence == 0.0
      && s.auditLog == [] && s.language == "en" && s.userId == userId && s.lastVariantShown == None
    ensures user.Some? && user.value.lastSession.Some? && user.value.lastSession.value.eventHistory.Some? ==>
      var stored := user.value.lastSession.value;
      LoadOrCreate(user, userId, uuidHex) == stored.(eventHistory := Some(AsItems(DictsOnly(stored.eventHistory.value))))
  {
  }
}
