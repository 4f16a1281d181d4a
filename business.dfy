/** Tenants: subscription tiers with their limits, sharing levels, and the business and
    agreement records. */
module Business {
  import opened Wrappers

  datatype DataSharingLevel = NoSharing | Aggregate | Full
  {
    function Value(): string
    {
      match this
      case NoSharing => "none"
      case Aggregate => "aggregate"
      case Full => "full"
    }
  }

  datatype BusinessTier = Free | Starter | Growth | Enterprise
  {
    function Value(): string
    {
      match this
      case Free => "free"
      case Starter => "starter"
      case Growth => "growth"
      case Enterprise => "enterprise"
    }
  }

  /** `BusinessTier(value)`: None where the enum constructor raises. */
  function ParseTier(s: string): (r: Option<BusinessTier>)
    ensures r.Some? ==> r.value.Value() == s
    ensures forall t: BusinessTier :: t.Value() == s ==> r == Some(t)
  {
    if s == "free" then Some(Free)
    else if s == "starter" then Some(Starter)
    else if s == "growth" then Some(Growth)
    else if s == "enterprise" then Some(Enterprise)
    else None
  }

  /** The limit value that means "no limit". */
  const Unlimited: int := -1

  datatype TierLimits = TierLimits(monthlyEvents: int, maxPartners: int, crossSiteTracking: bool, dataExport: bool)

  /** The `TIER_LIMITS` table. */
  function Limits(t: BusinessTier): TierLimits
  {
    match t
    case Free => TierLimits(10000, 0, false, false)
    case Starter => TierLimits(100000, 3, true, false)
    case Growth => TierLimits(1000000, 10, true, true)
    case Enterprise => TierLimits(Unlimited, Unlimited, true, true)
  }

  /** A tenant (timestamps not modelled). */
  datatype Business = Business(
    businessId: string, name: string, domain: string, allowedDomains: seq<string>,
    apiKey: string, apiSecretHash: string,
    tier: BusinessTier, sharingLevel: DataSharingLevel, partnerIds: seq<string>,
    isActive: bool, monthlyEventLimit: int, monthlyEventsUsed: int)

  /** A business built from its required fields only. */
  function NewBusiness(businessId: string, name: string, domain: string, apiKey: string, apiSecretHash: string)
    : (b: Business)
    ensures b.tier == Free && b.sharingLevel == NoSharing && b.partnerIds == [] && b.allowedDomains == []
    ensures b.isActive && b.monthlyEventsUsed == 0
    ensures b.monthlyEventLimit == Limits(b.tier).monthlyEvents
    ensures b.businessId == businessId && b.name == name && b.domain == domain
    ensures b.apiKey == apiKey && b.apiSecretHash == apiSecretHash
  {
    Business(businessId, name, domain, [], apiKey, apiSecretHash, Free, NoSharing, [], true, 10000, 0)
  }

  /** A sharing agreement between two businesses (timestamps not modelled). */
  datatype DataSharingAgreement = DataSharingAgreement(
    agreementId: string, fromBusinessId: string, toBusinessId: string,
    sharingLevel: DataSharingLevel, permissions: map<string, bool>, status: string)

  const DefaultPermissions: map<string, bool> := map[
    "share_behavioral_vectors" := true, "share_identity_states" := true,
    "share_conversion_data" := false, "share_raw_events" := false]

  /** An agreement built without permissions or status: vectors and identity states are shared,
      conversions and raw events are not, and it awaits acceptance. */
  function NewAgreement(agreementId: string, fromBusinessId: string, toBusinessId: string, level: DataSharingLevel)
    : (a: DataSharingAgreement)
    ensures a.permissions.Keys == {"share_behavioral_vectors", "share_identity_states", "share_conversion_data", "share_raw_events"}
    ensures a.permissions["share_behavioral_vectors"] && a.permissions["share_identity_states"]
    ensures !a.permissions["share_conversion_data"] && !a.permissions["share_raw_events"]
    ensures a.status == "pending" && a.sharingLevel == level
    ensures a.agreementId == agreementId && a.fromBusinessId == fromBusinessId && a.toBusinessId == toBusinessId
  {
    DataSharingAgreement(agreementId, fromBusinessId, toBusinessId, level, DefaultPermissions, "pending")
  }

  /** The cross-business user record: local ids per business and the aggregated profile's
      counters (the free-form tendency labels and timestamps are not modelled). */
  datatype GlobalUser = GlobalUser(
    globalUid: string, businessUids: map<string, string>,
    crossSiteVisits: int, totalConversions: int, lastBusinessId: Option<string>)

  function NewGlobalUser(globalUid: string): (u: GlobalUser)
    ensures u.globalUid == globalUid && u.businessUids == map[]
    ensures u.crossSiteVisits == 0 && u.totalConversions == 0 && u.lastBusinessId == None
  {
    GlobalUser(globalUid, map[], 0, 0, None)
  }

  // ----- Lemmas -----

  /** The tier names parse back to their tiers; nothing else parses. */
  lemma TierNamesRoundTrip(t: BusinessTier, s: string)
    ensures ParseTier(t.Value()) == Some(t)
    ensures ParseTier(s).Some? <==> s in {"free", "starter", "growth", "enterprise"}
  {
  }

  /** The table: FREE is the most limited tier and the only one without cross-site tracking,
      event limits grow from FREE to GROWTH, and ENTERPRISE is unlimited. */
  lemma TierTable(t: BusinessTier)
    ensures Limits(Free) == TierLimits(10000, 0, false, false)
    ensures Limits(Free).monthlyEvents < Limits(Starter).monthlyEvents < Limits(Growth).monthlyEvents
    ensures Limits(Free).maxPartners < Limits(Starter).maxPartners < Limits(Growth).maxPartners
    ensures Limits(Enterprise).monthlyEvents == Unlimited && Limits(Enterprise).maxPartners == Unlimited
    ensures !Limits(t).crossSiteTracking <==> t == Free
    ensures Limits(t).dataExport <==> t == Growth || t == Enterprise
    ensures Limits(t).monthlyEvents == Unlimited <==> t == Enterprise
  {
  }
}
