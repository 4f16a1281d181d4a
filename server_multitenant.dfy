/** The multi-tenant server: the API key's usage check, the data sharing agreements between
    businesses, the loading of a user's session, and the demo classifier with its cross-site
    adjustments. */
module ServerMultitenant {
  import opened Wrappers
  import opened Common
  import opened Text
  import opened Events
  import opened ServerData
  import opened Business

  // ----- Usage check -----

  /** An active business document as the key check reads it: the stored tier text and the
      `monthly_events_used` counter, when present. */
  datatype BusinessDoc = BusinessDoc(tier: string, monthlyEventsUsed: Option<int>)

  /** `verify_api_key`: 401 without an active business for the key; the tier text goes through the
      enum constructor, which raises on an unknown tier and so gives the framework's generic 500;
      then 429 when a limited tier's counter has reached its limit. */
  function CheckUsage(found: Option<BusinessDoc>): (r: Result<BusinessTier, ApiError>)
    ensures found.None? ==> r == Err(ApiError(401, "Invalid or inactive API key"))
    ensures r.Ok? ==> found.Some? && r.value.Value() == found.value.tier
  {
    if found.None? then Err(ApiError(401, "Invalid or inactive API key"))
    else match ParseTier(found.value.tier)
      case None => Err(ApiError(500, "Internal Server Error"))
      case Some(t) =>
        var used := if found.value.monthlyEventsUsed.Some? then found.value.monthlyEventsUsed.value else 0;
        if Limits(t).monthlyEvents != Unlimited && used >= Limits(t).monthlyEvents then
          Err(ApiError(429, "Monthly event limit exceeded"))
        else Ok(t)
  }

  // ----- Data sharing -----

  /** The business and agreement collections, by id. */
  datatype Store = Store(businesses: map<string, Business>, agreements: map<string, DataSharingAgreement>)

  /** A sharing request: the partner, the level, and the optional permission flags. */
  datatype SharingRequest = SharingRequest(partnerBusinessId: string, sharingLevel: DataSharingLevel, permissions: map<string, bool>)

  function Flag(m: map<string, bool>, key: string): bool
  {
    if key in m then m[key] else false
  }

  /** A pending or active agreement from one business to another exists. */
  predicate AgreementOpen(st: Store, fromId: string, toId: string)
  {
    exists id :: id in st.agreements && st.agreements[id].fromBusinessId == fromId
      && st.agreements[id].toBusinessId == toId && st.agreements[id].status in {"pending", "active"}
  }

  /** The agreement a request creates: vectors and identity states always shared, conversions and
      raw events as requested, defaulting to not shared. */
  function RequestedAgreement(id: string, caller: Business, req: SharingRequest): (a: DataSharingAgreement)
    ensures a.status == "pending" && a.fromBusinessId == caller.businessId && a.toBusinessId == req.partnerBusinessId
    ensures a.permissions.Keys == {"share_behavioral_vectors", "share_identity_states", "share_conversion_data", "share_raw_events"}
    ensures a.permissions["share_behavioral_vectors"] && a.permissions["share_identity_states"]
    ensures a.permissions["share_conversion_data"] == Flag(req.permissions, "share_conversion_data")
    ensures a.permissions["share_raw_events"] == Flag(req.permissions, "share_raw_events")
  {
    DataSharingAgreement(id, caller.businessId, req.partnerBusinessId, req.sharingLevel,
      map["share_behavioral_vectors" := true, "share_identity_states" := true,
          "share_conversion_data" := Flag(req.permissions, "share_conversion_data"),
          "share_raw_events" := Flag(req.permissions, "share_raw_events")],
      "pending")
  }

  /** The partner-count gate: a limited tier refuses once the partner list has reached its limit. */
  predicate PartnerLimitReached(caller: Business)
  {
    Limits(caller.tier).maxPartners != Unlimited && |caller.partnerIds| >= Limits(caller.tier).maxPartners
  }

  /** `request_data_sharing`: the tier gates, then the partner lookup, then the duplicate check,
      then the new pending agreement under the fresh id. */
  function RequestSharing(st: Store, caller: Business, req: SharingRequest, newId: string): Result<Store, ApiError>
  {
    if !Limits(caller.tier).crossSiteTracking then Err(ApiError(403, "Upgrade to enable cross-site tracking"))
    else if PartnerLimitReached(caller) then Err(ApiError(403, "Partner limit reached"))
    else if req.partnerBusinessId !in st.businesses then Err(ApiError(404, "Partner business not found"))
    else if AgreementOpen(st, caller.businessId, req.partnerBusinessId) then Err(ApiError(400, "Agreement already exists"))
    else Ok(st.(agreements := st.agreements[newId := RequestedAgreement(newId, caller, req)]))
  }

  /** `$addToSet`: append unless present. */
  function AddToSet(s: seq<string>, x: string): (r: seq<string>)
    ensures x in r && forall y :: y in s ==> y in r
    ensures forall y :: y in r ==> y in s || y == x
    ensures NoDuplicates(s) ==> NoDuplicates(r)
  {
    if x in s then s else s + [x]
  }

  predicate NoDuplicates(s: seq<string>)
  {
    forall i, j :: 0 <= i < j < |s| ==> s[i] != s[j]
  }

  /** `$pull`: remove every occurrence, keeping the rest in order. */
  function Pull(s: seq<string>, x: string): (r: seq<string>)
    ensures x !in r
    ensures forall y :: y in r <==> y in s && y != x
  {
    if s == [] then []
    else Pull(s[..|s| - 1], x) + (if s[|s| - 1] == x then [] else [s[|s| - 1]])
  }

  /** An update on a business that matches nothing changes nothing. */
  function UpdatePartners(st: Store, id: string, f: seq<string> -> seq<string>): Store
  {
    if id in st.businesses then
      st.(businesses := st.businesses[id := st.businesses[id].(partnerIds := f(st.businesses[id].partnerIds))])
    else st
  }

  /** `accept_sharing_request`: only a pending agreement addressed to the caller; it becomes active
      and each side is added to the other's partners. */
  function AcceptSharing(st: Store, callerId: string, agreementId: string): Result<Store, ApiError>
  {
    if !(agreementId in st.agreements && st.agreements[agreementId].toBusinessId == callerId
         && st.agreements[agreementId].status == "pending") then
      Err(ApiError(404, "Agreement not found or not pending"))
    else
      var a := st.agreements[agreementId];
      var st1 := st.(agreements := st.agreements[agreementId := a.(status := "active")]);
      var st2 := UpdatePartners(st1, callerId, s => AddToSet(s, a.fromBusinessId));
      Ok(UpdatePartners(st2, a.fromBusinessId, s => AddToSet(s, callerId)))
  }

  /** The other side of an agreement, seen from the caller. */
  function OtherParty(a: DataSharingAgreement, callerId: string): string
  {
    if a.fromBusinessId == callerId then a.toBusinessId else a.fromBusinessId
  }

  /** `revoke_sharing`: only an active agreement the caller is a side of; it becomes revoked and
      each side is removed from the other's partners. */
  function RevokeSharing(st: Store, callerId: string, agreementId: string): Result<Store, ApiError>
  {
    if !(agreementId in st.agreements
         && (st.agreements[agreementId].fromBusinessId == callerId || st.agreements[agreementId].toBusinessId == callerId)
         && st.agreements[agreementId].status == "active") then
      Err(ApiError(404, "Active agreement not found"))
    else
      var a := st.agreements[agreementId];
      var other := OtherParty(a, callerId);
      var st1 := st.(agreements := st.agreements[agreementId := a.(status := "revoked")]);
      var st2 := UpdatePartners(st1, callerId, s => Pull(s, other));
      Ok(UpdatePartners(st2, other, s => Pull(s, callerId)))
  }

  // ----- Session loading -----

  /** The window of stored events a loaded session keeps. */
  const HistoryWindow: nat := 50

  /** `get_or_create_session`: the stored session's last 50 entries, of which the dictionaries are
      kept, or a new session of this business. */
  function LoadOrCreate(user: Option<UserDoc>, businessId: string, userId: string, uuidHex: string): SessionDoc
  {
    if user.Some? && user.value.lastSession.Some? then
      var s := user.value.lastSession.value;
      var items := if s.eventHistory.Some? then s.eventHistory.value else [];
      s.(eventHistory := Some(AsItems(DictsOnly(LastN(items, HistoryWindow)))))
    else NewSession(Some(businessId), userId, uuidHex)
  }

  method GetOrCreateSession(user: Option<UserDoc>, businessId: string, userId: string, uuidHex: string)
    returns (session: SessionDoc)
    ensures session == LoadOrCreate(user, businessId, userId, uuidHex)
  {
    if user.Some? && user.value.lastSession.Some? {
      session := user.value.lastSession.value;
      if session.eventHistory.None? {
        session := session.(eventHistory := Some([]));
      }
      var items := session.eventHistory.value;
      var recent := if |items| > HistoryWindow then items[|items| - HistoryWindow..] else items;
      var clean := CleanHistory(recent);
      session := session.(eventHistory := Some(AsItems(clean)));
      return;
    }
    session := NewSession(Some(businessId), userId, uuidHex);
  }

  // ----- Demo classifier -----

  datatype Counts = Counts(
    total: nat, scroll: nat, click: nat, rage: nat, dead: nat,
    mouseHesitation: nat, fastScrolls: nat, hover: nat)

  function Bit(b: bool): nat
  {
    if b then 1 else 0
  }

  /** One event's contribution: substring tests on `str()` of the name, lower-cased, and exact
      tests on the name. */
  function Tally(c: Counts, e: RawEvent): Counts
  {
    var t := Lower(NameText(e.eventName));
    var f := e.eventName;
    Counts(
      c.total + 1,
      c.scroll + Bit(Contains(t, "scroll")),
      c.click + Bit(Contains(t, "click")),
      c.rage + Bit(f == NameStr("rage_click")),
      c.dead + Bit(f == NameStr("dead_click")),
      c.mouseHesitation + Bit(f == NameStr("mouse_hesitation")),
      c.fastScrolls + Bit(f == NameStr("scroll_fast")),
      c.hover + Bit(f == NameStr("hover")))
  }

  predicate Bounded(c: Counts)
  {
    && c.scroll <= c.total && c.click <= c.total && c.rage <= c.total && c.dead <= c.total
    && c.mouseHesitation <= c.total && c.fastScrolls <= c.total && c.hover <= c.total
  }

  function CountsOf(h: seq<RawEvent>): (c: Counts)
    ensures c.total == |h| && Bounded(c)
  {
    if h == [] then Counts(0, 0, 0, 0, 0, 0, 0, 0) else Tally(CountsOf(h[..|h| - 1]), h[|h| - 1])
  }

  datatype Scores = Scores(exploration: real, hesitation: real, engagement: real, velocity: real, frustration: real)
  {
    predicate Valid()
    {
      InUnit(exploration) && InUnit(hesitation) && InUnit(engagement) && InUnit(velocity) && InUnit(frustration)
    }
  }

  /** The scores before any cross-site adjustment, each `min(1, n / k)`. */
  function ScoresOf(c: Counts): (s: Scores)
    ensures s.Valid()
  {
    Scores(
      Min(1.0, c.scroll as real / 8.0),
      Min(1.0, (c.mouseHesitation + c.rage) as real / 6.0),
      Min(1.0, (c.click + c.hover) as real / 6.0),
      Min(1.0, c.total as real / 10.0),
      Min(1.0, (c.rage * 2 + c.dead) as real / 5.0))
  }

  /** What the partner sites tell about a user: the identity labels seen there (a partner's record
      may lack one) and the number of cross-site visits. */
  datatype CrossSiteProfile = CrossSiteProfile(identityStatesSeen: seq<Option<string>>, crossSiteVisits: int)

  /** The confidence boost: 0.2 when a profile has seen the user as an impulse buyer. */
  function Boost(p: Option<CrossSiteProfile>): (b: real)
    ensures b == 0.0 || b == 0.2
  {
    if p.Some? && Some("impulse_buyer") in p.value.identityStatesSeen then 0.2 else 0.0
  }

  /** The velocity after the cross-site adjustment: more than two visits add 0.15, capped at 1. */
  function AdjustedScores(s: Scores, p: Option<CrossSiteProfile>): (r: Scores)
    requires s.Valid()
    ensures r.Valid() && r == s.(velocity := r.velocity)
    ensures p.Some? && p.value.crossSiteVisits > 2 ==> r.velocity == Min(1.0, s.velocity + 0.15)
    ensures !(p.Some? && p.value.crossSiteVisits > 2) ==> r.velocity == s.velocity
  {
    if p.Some? && p.value.crossSiteVisits > 2 then s.(velocity := Min(1.0, s.velocity + 0.15)) else s
  }

  /** The six rules, first match wins; the confidence is before the cap. */
  function Classify(c: Counts, s: Scores, boost: real): (IdentityState, real)
  {
    if s.frustration > 0.4 then (Overwhelmed, 0.85)
    else if c.fastScrolls > 3 && s.engagement < 0.3 then (ImpulseBuyer, 0.80 + boost)
    else if s.velocity > 0.6 && s.hesitation < 0.2 then (Confident, 0.82)
    else if s.engagement > 0.5 then (ComparisonFocused, 0.70)
    else if s.hesitation > 0.3 then (Cautious, 0.65)
    else (Exploratory, 0.55)
  }

  datatype Variant = Variant(variantId: string, content: map<string, string>)

  /** The six-entry variant table; the ready-to-decide label has no entry. */
  function VariantTable(x: IdentityState): Option<Variant>
  {
    match x
    case Confident => Some(Variant("confident_v1", map["headline" := "Premium Quality", "cta" := "Buy Now", "urgency" := "high"]))
    case Exploratory => Some(Variant("exploratory_v1", map["headline" := "Discover More", "cta" := "Browse", "urgency" := "low"]))
    case Overwhelmed => Some(Variant("overwhelmed_v1", map["headline" := "Our Top Picks", "cta" := "See Picks", "urgency" := "medium"]))
    case ComparisonFocused => Some(Variant("comparison_v1", map["headline" := "Compare Options", "cta" := "Compare", "urgency" := "low"]))
    case Cautious => Some(Variant("cautious_v1", map["headline" := "Risk-Free Shopping", "cta" := "Learn More", "urgency" := "medium"]))
    case ImpulseBuyer => Some(Variant("impulse_v1", map["headline" := "Flash Sale!", "cta" := "Shop Now", "urgency" := "extreme"]))
    case ReadyToDecide => None
  }

  /** The lookup with its fallback to the exploratory entry. */
  function VariantFor(x: IdentityState): Variant
  {
    if VariantTable(x).Some? then VariantTable(x).value else VariantTable(Exploratory).value
  }

  datatype MockResult = MockResult(
    status: string, variantId: string, content: map<string, string>, identityState: string,
    confidence: real, vector: Scores, crossSiteEnhanced: bool)

  /** The response `mock_process_session` builds; `round3` renders `round(x, 3)`. */
  function MockOutcome(h: seq<RawEvent>, p: Option<CrossSiteProfile>, round3: real -> real): MockResult
  {
    var c := CountsOf(h);
    var s := AdjustedScores(ScoresOf(c), p);
    var (state, conf) := Classify(c, s, Boost(p));
    var v := VariantFor(state);
    MockResult("optimized", v.variantId, v.content, state.Value(), Min(1.0, conf),
      Scores(round3(s.exploration), round3(s.hesitation), round3(s.engagement), round3(s.velocity), round3(s.frustration)),
      p.Some?)
  }

  // ----- Lemmas -----

  /** The usage check rejects exactly when a known, limited tier's counter has reached its limit;
      an unknown tier is a server error rather than the free tier's limits. */
  lemma UsageOutcome(doc: BusinessDoc)
    ensures var used := if doc.monthlyEventsUsed.Some? then doc.monthlyEventsUsed.value else 0;
      match ParseTier(doc.tier)
      case None => CheckUsage(Some(doc)).Err? && CheckUsage(Some(doc)).error.status == 500
      case Some(t) =>
        && (CheckUsage(Some(doc)).Err? <==> Limits(t).monthlyEvents != Unlimited && used >= Limits(t).monthlyEvents)
        && (CheckUsage(Some(doc)).Err? ==> CheckUsage(Some(doc)).error.status == 429)
    ensures ParseTier(doc.tier) == Some(Enterprise) ==> CheckUsage(Some(doc)) == Ok(Enterprise)
  {
  }

  /** The free tier admits 10000 events: the 10000th is accepted and the next is refused. */
  lemma FreeTierBoundary()
    ensures CheckUsage(Some(BusinessDoc("free", Some(9999)))) == Ok(Free)
    ensures CheckUsage(Some(BusinessDoc("free", Some(10000)))).Err?
    ensures CheckUsage(Some(BusinessDoc("free", None))) == Ok(Free)
  {
  }

  /** A sharing request is refused with 403 exactly when the tier lacks cross-site tracking or the
      partner limit is reached; otherwise a pending agreement from the caller to the partner is
      stored under the new id, with vectors and identity states shared, and nothing else changes. */
  lemma RequestSharingOutcome(st: Store, caller: Business, req: SharingRequest, newId: string)
    ensures var r := RequestSharing(st, caller, req, newId);
      (r.Err? && r.error.status == 403) <==> !Limits(caller.tier).crossSiteTracking || PartnerLimitReached(caller)
    ensures caller.tier == Free ==> RequestSharing(st, caller, req, newId).Err?
    ensures var r := RequestSharing(st, caller, req, newId);
      r.Ok? ==> && req.partnerBusinessId in st.businesses
                && !AgreementOpen(st, caller.businessId, req.partnerBusinessId)
                && r.value.businesses == st.businesses
                && r.value.agreements == st.agreements[newId := RequestedAgreement(newId, caller, req)]
    ensures var r := RequestSharing(st, caller, req, newId);
      r.Ok? ==> AgreementOpen(r.value, caller.businessId, req.partnerBusinessId)
  {
    var r := RequestSharing(st, caller, req, newId);
    if r.Ok? {
      assert r.value.agreements[newId].status == "pending";
    }
  }

  /** A second identical request is refused as a duplicate. */
  lemma RequestSharingNotRepeated(st: Store, caller: Business, req: SharingRequest, id1: string, id2: string)
    requires RequestSharing(st, caller, req, id1).Ok?
    ensures RequestSharing(RequestSharing(st, caller, req, id1).value, caller, req, id2).Err?
  {
    RequestSharingOutcome(st, caller, req, id1);
  }

  /** The counterparty is the side of the agreement that is not the caller. */
  lemma OtherPartyIsCounterparty(a: DataSharingAgreement, callerId: string)
    requires a.fromBusinessId == callerId || a.toBusinessId == callerId
    ensures a.fromBusinessId != a.toBusinessId ==> OtherParty(a, callerId) != callerId
    ensures OtherParty(a, callerId) in {a.fromBusinessId, a.toBusinessId}
    ensures a.toBusinessId == callerId && a.fromBusinessId != callerId ==> OtherParty(a, callerId) == a.fromBusinessId
  {
  }

  /** Accepting links both sides, and revoking the same agreement unlinks both. */
  lemma AcceptThenRevoke(st: Store, callerId: string, agreementId: string)
    requires AcceptSharing(st, callerId, agreementId).Ok?
    requires var a := st.agreements[agreementId];
      a.fromBusinessId != callerId && callerId in st.businesses && a.fromBusinessId in st.businesses
    ensures var a := st.agreements[agreementId];
      var st1 := AcceptSharing(st, callerId, agreementId).value;
      && a.fromBusinessId in st1.businesses[callerId].partnerIds
      && callerId in st1.businesses[a.fromBusinessId].partnerIds
      && st1.agreements[agreementId].status == "active"
    ensures var a := st.agreements[agreementId];
      var st1 := AcceptSharing(st, callerId, agreementId).value;
      var r := RevokeSharing(st1, callerId, agreementId);
      && r.Ok?
      && a.fromBusinessId !in r.value.businesses[callerId].partnerIds
      && callerId !in r.value.businesses[a.fromBusinessId].partnerIds
      && r.value.agreements[agreementId].status == "revoked"
  {
  }

  /** The window keeps at most 50 entries: the dictionaries among the last 50 stored ones. */
  lemma WindowOfHistory(items: seq<StoredItem>)
    ensures |AsItems(DictsOnly(LastN(items, HistoryWindow)))| <= HistoryWindow
    ensures DictsOnly(AsItems(DictsOnly(LastN(items, HistoryWindow))))
      == DictsOnly(items[|items| - |LastN(items, HistoryWindow)|..])
  {
    CleanAfterStore(DictsOnly(LastN(items, HistoryWindow)));
  }

  /** A history of dictionaries only keeps exactly its last 50 entries. */
  lemma WindowOfDictHistory(items: seq<StoredItem>)
    requires forall i :: 0 <= i < |items| ==> items[i].DictItem?
    ensures AsItems(DictsOnly(LastN(items, HistoryWindow))) == LastN(items, HistoryWindow)
  {
    var recent := LastN(items, HistoryWindow);
    assert forall i :: 0 <= i < |recent| ==> recent[i] == items[|items| - |recent| + i];
    DictsOnlyKeepsDicts(recent);
    var kept := AsItems(DictsOnly(recent));
    assert |kept| == |recent|;
    assert forall i :: 0 <= i < |recent| ==> kept[i] == DictItem(recent[i].event) == recent[i];
  }

  /** A loaded session's history is the window applied to the stored one; nothing else changes. */
  lemma LoadedSessionWindow(user: Option<UserDoc>, businessId: string, userId: string, uuidHex: string)
    requires user.Some? && user.value.lastSession.Some? && user.value.lastSession.value.eventHistory.Some?
    ensures var stored := user.value.lastSession.value;
      LoadOrCreate(user, businessId, userId, uuidHex)
        == stored.(eventHistory := Some(AsItems(DictsOnly(LastN(stored.eventHistory.value, HistoryWindow)))))
  {
  }

  /** A new session belongs to the caller's business and starts empty. */
  lemma NewSessionShape(businessId: string, userId: string, uuidHex: string)
    ensures var s := LoadOrCreate(None, businessId, userId, uuidHex);
      s.businessId == Some(businessId) && s.userId == userId && s.eventHistory == Some([])
      && s.identityState == None && s.identityConfidence == 0.0 && s.auditLog == []
  {
  }

  /** The first rule wins: two rage clicks or three dead clicks make the user overwhelmed at 0.85. */
  lemma FrustrationWins(h: seq<RawEvent>, p: Option<CrossSiteProfile>, round3: real -> real)
    ensures var c := CountsOf(h);
      ScoresOf(c).frustration > 0.4 <==> c.rage * 2 + c.dead > 2
    ensures CountsOf(h).rage * 2 + CountsOf(h).dead > 2 ==>
      MockOutcome(h, p, round3).identityState == "overwhelmed" && MockOutcome(h, p, round3).confidence == 0.85
  {
  }

  /** No rule answers ready-to-decide, the one label the table lacks. */
  lemma ClassifyNeverReady(c: Counts, sc: Scores, boost: real)
    ensures Classify(c, sc, boost).0 != ReadyToDecide
    ensures VariantTable(Classify(c, sc, boost).0).Some?
  {
  }

  /** The classifier never answers ready-to-decide, so the table's fallback to the exploratory
      entry is never taken and the returned variant is the label's own entry. */
  lemma NeverReadyToDecide(h: seq<RawEvent>, p: Option<CrossSiteProfile>, round3: real -> real)
    ensures MockOutcome(h, p, round3).identityState != "ready_to_decide"
    ensures exists x: IdentityState ::
              && VariantTable(x).Some? && x.Value() == MockOutcome(h, p, round3).identityState
              && MockOutcome(h, p, round3).variantId == VariantTable(x).value.variantId
    ensures VariantFor(ReadyToDecide) == VariantFor(Exploratory)
  {
    var c := CountsOf(h);
    var sc := AdjustedScores(ScoresOf(c), p);
    var x := Classify(c, sc, Boost(p)).0;
    ClassifyNeverReady(c, sc, Boost(p));
    assert VariantTable(x).Some? && x.Value() == MockOutcome(h, p, round3).identityState;
  }

  /** The reported confidence is in [0, 1]; an impulse buyer already seen as one elsewhere reports
      exactly 1.0 (0.8 plus the 0.2 boost), otherwise 0.8. */
  lemma ReportedConfidence(h: seq<RawEvent>, p: Option<CrossSiteProfile>, round3: real -> real)
    ensures InUnit(MockOutcome(h, p, round3).confidence)
    ensures MockOutcome(h, p, round3).identityState == "impulse_buyer" ==>
      MockOutcome(h, p, round3).confidence == (if Boost(p) == 0.2 then 1.0 else 0.8)
    ensures p.None? ==> MockOutcome(h, p, round3).confidence <= 0.85
    ensures MockOutcome(h, p, round3).crossSiteEnhanced <==> p.Some?
  {
  }

  /** Without a cross-site profile, or with no more than two visits and no impulse label, the
      profile changes nothing but the enhanced flag. */
  lemma ProfileWithoutSignalsChangesNothing(h: seq<RawEvent>, prof: CrossSiteProfile, round3: real -> real)
    requires prof.crossSiteVisits <= 2 && Some("impulse_buyer") !in prof.identityStatesSeen
    ensures MockOutcome(h, Some(prof), round3) == MockOutcome(h, None, round3).(crossSiteEnhanced := true)
  {
  }
}
