# html.ai personalisation pipeline — a Dafny model

html.ai personalises one page component (the "hero" banner) for each visitor. The model covers
these parts of it:

- The tracked events and the per-visitor session they are stored in (`Events`). The session
  keeps at most the 50 most recent events and a timestamped audit log.
- The four agents of the multi-agent workflow:
  - analytics (`AnalyticsAgent`): turns the recency-weighted event history into a five-feature
    behavioural vector;
  - identity (`IdentityAgent`): names one of seven identity states, using an external classifier
    and a fixed rule chain as fallback;
  - decision (`DecisionAgent`): picks a hero variant by epsilon-greedy selection with noisy
    conversion-rate scores;
  - guardrail (`GuardrailAgent`): approves or rejects that pick.
- Their composition as a linear graph (`Workflow`).
- The UI-variant records (`Variants`).
- The A/B scoring rules (`Scoring`).
- The business tiers and sharing agreements (`Business`).
- The three servers:
  - the single-tenant server's mock pipeline and session loading (`ServerIntegrated`);
  - the multi-tenant server's usage quota, data-sharing requests, accept and revoke, session
    loading and mock pipeline with its cross-site boost (`ServerMultitenant`);
  - the analytics server's variant listing, overview statistics and variant history
    (`ServerAnalytics`).

Stored documents are shared by the servers and described in `ServerData`.

## How the model is built

- **Session.** The session is a class, `Events.UserSession`, because the agents update it in
  place. `Value()` gives a snapshot of it as the datatype `Events.SessionState`.
- **Agents.** Each agent's `process` appears twice:
  - a pure step function on snapshots (`AnalyticsStep`, `IdentityStep`, `DecisionStep`,
    `GuardrailStep`);
  - a `Process` method on the class, proved to have exactly that step's effect.
- **Failures.** A stage that raises in the source returns `Err(StageError)`. This covers a
  vector or a decision that fails its `[0, 1]` field validation, and an exploit step without an
  identity.
- **Workflow.** The workflow composes the step functions.
- **Loops.** Loops in the source (the five feature computations, the analytics server's scans)
  are methods with loop invariants. Each is proved equal to a specification function, and the
  lemmas are about those functions.
- **Inputs from outside.** Everything the code reads from the outside world is a parameter:
  - the clock, as timestamp strings;
  - the recency weight of an event (`weightOf`), standing for `exp(-age/300)`;
  - the random draws (`Draws`: the epsilon draw, the explore pick and standard-normal noise);
  - the language-model classifier's answer (`ClassifierAnswer`);
  - UUIDs;
  - Python's float rounding and `.2f` formatting (`round2`, `round3`, `fixed2`).
- **Stored documents.** MongoDB documents are datatypes with `Option` fields wherever the code
  reads them with `.get(key, default)`.

Where the code and its documentation disagree, the model follows the code. The two exceptions are
the defects listed under "## Findings": there the model states the code as written in separate
members, and the pipeline members use the corrected behaviour (see "## Left out"). Otherwise:

- `verify_api_key` looks the tier up with `BusinessTier(business["tier"])`, which raises on an
  unknown tier string. The `.get(..., FREE)` default is therefore never reached: an unknown tier
  is a server error (500), not the free tier's limits (`ServerMultitenant.CheckUsage`).
- The exploration score is 0.5 when the total recency weight is 0. It is weight-independent only
  when the total weight is not 0 (`AnalyticsAgent.ExplorationIgnoresWeights`).
- `overall_leader` compares the rounded averages, not the raw ones
  (`ServerAnalytics.LeaderRule`).
- The multi-tenant loader takes the last 50 stored entries before it drops non-dictionary
  entries. A session can therefore keep fewer than 50 events although more are stored
  (`ServerMultitenant.WindowOfHistory`).
- In the single-tenant mock, `time_events` is computed and never used, and neither mock uses
  `component_id`. Both are left out of the result.

## Model

| member | source | states |
|---|---|---|
| Events.BehavioralVector.ToDict | htmlTag/aiBackend/models/events.py:102-109 | the dictionary has exactly the five feature names as keys, each mapped to its feature |
| Events.MakeVector | htmlTag/aiBackend/models/events.py:92-100 | a vector is built exactly when all five features lie in [0, 1], and then holds them unchanged |
| Events.VectorDictRoundTrip | htmlTag/aiBackend/models/events.py:92-109 | reading back a valid vector's dictionary gives the vector; a vector read from a dictionary is valid and writes back to that dictionary without its extra keys |
| Events.ParseIdentityState | htmlTag/aiBackend/models/events.py:112-120 | a parsed label's value is the parsed string |
| Events.IdentityStatesClosed | htmlTag/aiBackend/models/events.py:112-120 | the seven states are all listed, each state's value parses back to it, exactly the seven values parse, and the values are distinct |
| Events.Stamp | htmlTag/aiBackend/models/events.py:145-148 | an audit entry is `[`, the timestamp, `] ` and the entry text, in that order and nothing else |
| Events.UserSession.constructor | htmlTag/aiBackend/models/events.py:123-136 | a new session has the given ids, language "en", no events, vector or identity, confidence 0 and an empty log |
| Events.UserSession.FromState | htmlTag/aiBackend/models/events.py:123-136 | a session rebuilt from a state dictionary has exactly that state |
| Events.UserSession.AddEvent | htmlTag/aiBackend/models/events.py:138-143 | the history becomes the last 50 of the old history plus the event; its length grows by one up to 50; the event is last; nothing else changes |
| Events.UserSession.AddAuditEntry | htmlTag/aiBackend/models/events.py:145-148 | exactly one stamped entry is appended to the log; nothing else changes |
| Events.AddAllKeepsMostRecent | htmlTag/aiBackend/models/events.py:138-143 | adding events one by one keeps the last 50 of the old history followed by the new events |
| Events.TruncateTwice | htmlTag/aiBackend/models/events.py:141-143 | truncating before and after an append is the same as truncating once after it |
| Variants.NewVariant | htmlTag/aiBackend/models/variants.py:9-19 | a new variant has no target identity and no performance metrics and keeps the given fields |
| Variants.MakeDecision | htmlTag/aiBackend/models/variants.py:41-48 | a decision record is built exactly when its confidence and exploration factor lie in [0, 1] |
| Variants.NewGuardrailCheck | htmlTag/aiBackend/models/variants.py:61-67 | a check built without rules has an empty rule list |
| AnalyticsAgent.Process | htmlTag/aiBackend/agents/analytics_agent.py:19-45 | on success the session gains the computed vector and two audit entries and nothing else; when validation fails the session is unchanged and the error is reported |
| AnalyticsAgent.ComputeBehavioralVector | htmlTag/aiBackend/agents/analytics_agent.py:47-82 | the vector is the neutral one for no events, otherwise the five features of the weighted events, or none when they fail validation |
| AnalyticsAgent.Weigh | htmlTag/aiBackend/agents/analytics_agent.py:60-67 | every event is paired, in order, with its recency weight |
| AnalyticsAgent.ComputeExploration | htmlTag/aiBackend/agents/analytics_agent.py:84-99 | the loop computes the exploration feature: the number of distinct component ids over 5, capped at 1, or 0.5 when the total weight is 0 |
| AnalyticsAgent.ComputeHesitation | htmlTag/aiBackend/agents/analytics_agent.py:101-115 | the loop computes the weighted share of backtrack events, capped at 1, or 0.5 when the total weight is 0 |
| AnalyticsAgent.ComputeEngagement | htmlTag/aiBackend/agents/analytics_agent.py:117-133 | the loop computes the weighted time on components over 60 seconds, capped at 1, or 0.5 when the total weight is 0 |
| AnalyticsAgent.ComputeVelocity | htmlTag/aiBackend/agents/analytics_agent.py:135-156 | the loop computes the weighted share of the four funnel events, capped at 1, or 0.5 when the total weight is 0 |
| AnalyticsAgent.ComputeFocus | htmlTag/aiBackend/agents/analytics_agent.py:158-179 | the result is the largest component time over the total component time, 0.5 without timed components or total time |
| AnalyticsAgent.CollectComponentTimes | htmlTag/aiBackend/agents/analytics_agent.py:160-165 | the loop accumulates each component's weighted time as the specification map does |
| AnalyticsAgent.SumValues | htmlTag/aiBackend/agents/analytics_agent.py:171 | the loop returns the sum of all component times |
| AnalyticsAgent.LargestValue | htmlTag/aiBackend/agents/analytics_agent.py:176-177 | the loop returns the largest component time |
| AnalyticsAgent.MaxOverIsMax | htmlTag/aiBackend/agents/analytics_agent.py:176-177 | the largest value is one of the map's values and bounds all of them |
| AnalyticsAgent.WeightWhereBounded | htmlTag/aiBackend/agents/analytics_agent.py:101-115 | with non-negative weights, the weight of any event class lies between 0 and the total weight |
| AnalyticsAgent.HesitationInUnit | htmlTag/aiBackend/agents/analytics_agent.py:101-115 | with non-negative weights the hesitation score lies in [0, 1] |
| AnalyticsAgent.VelocityInUnit | htmlTag/aiBackend/agents/analytics_agent.py:135-156 | with non-negative weights the velocity lies in [0, 1] |
| AnalyticsAgent.WeightedTimeNonNegative | htmlTag/aiBackend/agents/analytics_agent.py:117-133 | with non-negative weights and times the weighted time is non-negative |
| AnalyticsAgent.EngagementBounds | htmlTag/aiBackend/agents/analytics_agent.py:117-133 | engagement never exceeds 1, and is non-negative for non-negative weights and times |
| AnalyticsAgent.ComponentIdsOfEvents | htmlTag/aiBackend/agents/analytics_agent.py:84-99 | the explored set is exactly the component ids of events that carry one |
| AnalyticsAgent.ComponentIdsIgnoreWeights | htmlTag/aiBackend/agents/analytics_agent.py:84-99 | the explored set depends only on the events, not on their weights |
| AnalyticsAgent.ExplorationIgnoresWeights | htmlTag/aiBackend/agents/analytics_agent.py:84-99 | whenever the total weight is not 0, exploration does not depend on the weights and lies in [0, 1] |
| AnalyticsAgent.ComponentTimesShape | htmlTag/aiBackend/agents/analytics_agent.py:160-165 | the time map's keys are exactly the components of timed events; its values are non-negative for non-negative inputs |
| AnalyticsAgent.MaxShareInUnit | htmlTag/aiBackend/agents/analytics_agent.py:171-177 | the largest share of a non-zero, non-negative total lies in (0, 1] |
| AnalyticsAgent.FocusNeutralWithoutTimes | htmlTag/aiBackend/agents/analytics_agent.py:167-168 | without timed component events the focus is 0.5 |
| AnalyticsAgent.FocusBounds | htmlTag/aiBackend/agents/analytics_agent.py:158-179 | for non-negative weights and times the focus is 0.5 or lies in (0, 1] |
| AnalyticsAgent.VectorAlwaysValid | htmlTag/aiBackend/agents/analytics_agent.py:47-82 | with non-negative weights and times the vector passes validation; with no events it is the all-0.5 vector |
| IdentityAgent.Interpret | backend/agents/identity_agent.py:76-96 | the confidence handed on lies in [0, 1], and an in-range answer is interpreted as written |
| IdentityAgent.IdentityStep | backend/agents/identity_agent.py:52-98 | exactly the identity, its confidence and two new audit entries change; an identity is always set |
| IdentityAgent.Process | backend/agents/identity_agent.py:52-98 | the session changes exactly as the identity step says |
| IdentityAgent.NoVectorDefaultsToExploratory | backend/agents/identity_agent.py:66-71 | without a vector the result is EXPLORATORY at 0.5, whatever the classifier says |
| IdentityAgent.ClassifierOutcomes | backend/agents/identity_agent.py:76-96 | a known label with in-range confidence is taken as given; any other answer or failure gives the rule-based label at 0.6 |
| IdentityAgent.FallbackNeverReadyToDecide | backend/agents/identity_agent.py:100-114 | the rule chain never yields READY_TO_DECIDE |
| IdentityAgent.OverwhelmedRule | backend/agents/identity_agent.py:103-104 | the fallback says OVERWHELMED exactly when hesitation > 0.7 and exploration > 0.6 |
| IdentityAgent.CautiousWhenNoRuleFires | backend/agents/identity_agent.py:103-114 | the fallback says CAUTIOUS exactly when none of the five earlier rules fires |
| IdentityAgent.OverwhelmedExample | backend/agents/identity_agent.py:103-104 | hesitation 0.8 with exploration 0.7 is OVERWHELMED |
| IdentityAgent.AsWrittenKeepsOutOfRangeConfidence | backend/agents/identity_agent.py:81-86 | as written, a confidence of 85 is stored unchanged, outside [0, 1] |
| DecisionAgent.Matching | backend/agents/decision_agent.py:82-85 | the matching variants are exactly the variants targeting the identity or no identity |
| DecisionAgent.Candidates | backend/agents/decision_agent.py:82-88 | when some variant targets the identity the candidates are exactly the matching variants, in order; otherwise all variants; a non-empty list never gives an empty one |
| DecisionAgent.Samples | backend/agents/decision_agent.py:91-96 | each candidate is scored, in order, by its conversion rate plus noise scaled by 0.1 (1 - confidence) |
| DecisionAgent.BestIndex | backend/agents/decision_agent.py:98-99 | the chosen position holds a largest score and every earlier score is strictly smaller, as a stable descending sort's first element |
| DecisionAgent.SelectBestVariant | backend/agents/decision_agent.py:72-107 | the method returns the first best-scoring candidate and its exploitation rationale |
| DecisionAgent.FilterMatching | backend/agents/decision_agent.py:82-85 | the loop keeps exactly the matching variants, in order |
| DecisionAgent.ScoreCandidates | backend/agents/decision_agent.py:91-96 | the loop scores every candidate as the specification does |
| DecisionAgent.Process | backend/agents/decision_agent.py:20-70 | the session changes exactly as the decision step says, and not at all when the step fails |
| DecisionAgent.DemoVariantsAreHeroHeadlines | backend/agents/decision_agent.py:111-179 | the demo catalogue has five hero headline variants, each with a conversion rate |
| DecisionAgent.ExploitIsFirstMaximum | backend/agents/decision_agent.py:90-99 | the exploit pick is a candidate with a largest sample, and earlier candidates sample strictly lower |
| DecisionAgent.ZeroNoisePicksHighestRate | backend/agents/decision_agent.py:90-99 | at confidence 1 the pick has the highest conversion rate among the candidates |
| DecisionAgent.NoVariantsOnlyLogs | backend/agents/decision_agent.py:36-40 | with no hero variants only two audit entries are added |
| DecisionAgent.DecisionOutcome | backend/agents/decision_agent.py:42-68 | a decision selects an available variant and shows it; explore (draw < 0.2) gives factor 1 and the drawn pick; exploit gives factor 0 and the best candidate; the confidence is the session's |
| DecisionAgent.DecisionFailure | backend/agents/decision_agent.py:42-62 | with variants, the stage fails exactly when the confidence is outside [0, 1] or an exploit step has no identity |
| GuardrailAgent.Process | htmlTag/aiBackend/agents/guardrail_agent.py:30-85 | the session changes exactly as the guardrail step says |
| GuardrailAgent.ApprovedIffNoViolation | htmlTag/aiBackend/agents/guardrail_agent.py:44-73 | approval holds exactly when no protected-trait, price or component-scope violation is found; each rule is listed exactly when it fires; the session-scope and language rules never fire |
| GuardrailAgent.ReasonIffApproved | htmlTag/aiBackend/agents/guardrail_agent.py:68-74 | the reason is "All checks passed" exactly when approved, and otherwise lists the violations joined by ", " |
| GuardrailAgent.ProtectedTraitCheck | htmlTag/aiBackend/agents/guardrail_agent.py:87-103 | with an identity and a vector no trait violation is found; otherwise one is found exactly when demographics are recorded |
| GuardrailAgent.GuardrailOnlyAddsVerdict | htmlTag/aiBackend/agents/guardrail_agent.py:67-85 | the step changes only the verdict and the log, and running it again leaves the metrics as they were |
| GuardrailAgent.CleanDecisionApproved | htmlTag/aiBackend/agents/guardrail_agent.py:44-74 | a headline on an approved component without price content, with identity and vector present, is approved with no rules |
| Workflow.GraphIsLinear | backend/agents/workflow.py:37-57 | the graph runs analytics, identity, decision and guardrail in that order, each edge one stage nearer the end |
| Workflow.ProcessSessionComposesStages | backend/agents/workflow.py:59-72 | running the graph is the four steps applied in order, a failing stage ending the run |
| Workflow.AnalyticsStageSucceeds | backend/agents/workflow.py:45-52 | with non-negative weights and times the analytics stage succeeds, stores a vector and adds exactly its two audit lines |
| Workflow.DemoDecisionSucceeds | backend/agents/workflow.py:31-54 | over the demo catalogue, with an identity and an in-range confidence, the decision stage succeeds with a hero headline that passes the guardrails |
| Workflow.RunSucceeds | backend/agents/workflow.py:59-72 | when the first and third stages succeed, the run ends in the guardrail step of the decision's output |
| Workflow.DemoPipelineApproved | backend/agents/workflow.py:59-72 | for a well-formed history the run succeeds, shows a demo variant, sets an identity and is approved with no violations |
| Workflow.DemoPipelineLog | backend/agents/workflow.py:74-81 | the communication log is the initial log plus eight entries, two per stage, opened by each stage's first line |
| Workflow.AsWrittenOutOfRangeConfidenceFails | backend/agents/identity_agent.py:81-86 | as written, a classifier confidence of 85 makes the decision stage fail |
| Scoring.NewScoringWeights | htmlTag/aiBackend/models/scoring.py:48-52 | default weights with threshold 5 |
| Scoring.NewVariantScore | htmlTag/aiBackend/models/scoring.py:55-61 | a new variant score starts at 0 with no interactions and no history |
| Scoring.NewUserScores | htmlTag/aiBackend/models/scoring.py:64-74 | new scores hold fresh variants A and B, show A and have no regenerations |
| Scoring.CalculateScoreDelta | htmlTag/aiBackend/models/scoring.py:105-107 | the delta is the interaction's weight, or 0 for an unknown interaction |
| Scoring.ShouldTriggerRegeneration | htmlTag/aiBackend/models/scoring.py:110-128 | regeneration is due exactly when the gap reaches the threshold, and then names the loser: B when A is ahead, otherwise A |
| Scoring.RegenerationOutcome | htmlTag/aiBackend/models/scoring.py:110-128 | below the threshold nothing is due; at or above it the lower-scoring side is named; ties name A |
| Scoring.RegenerationSymmetric | htmlTag/aiBackend/models/scoring.py:110-128 | for different scores, swapping them keeps the decision and swaps the named side |
| Scoring.DefaultsExample | htmlTag/aiBackend/models/scoring.py:14-45 | a purchase is worth 10 and triggers regeneration of B from a 0-0 start; a click is worth 1 and does not |
| Scoring.DefaultWeightSigns | htmlTag/aiBackend/models/scoring.py:14-42 | the frustration signals weigh negatively; mouse moves and unknown interactions weigh 0 |
| Scoring.FreshScoresDoNotTrigger | htmlTag/aiBackend/models/scoring.py:64-74 | fresh scores never trigger regeneration at the default threshold |
| Business.ParseTier | htmlTag/aiBackend/models/business.py:19-24 | a parsed tier's value is the string, and every tier's value parses to it |
| Business.NewBusiness | htmlTag/aiBackend/models/business.py:27-55 | a new business is free, active, unshared and unused, with the free tier's event limit |
| Business.NewAgreement | htmlTag/aiBackend/models/business.py:69-93 | a new agreement is pending and shares vectors and identity states but no conversion data or raw events |
| Business.NewGlobalUser | htmlTag/aiBackend/models/business.py:107-131 | a new global user has no linked ids, visits or conversions |
| Business.TierNamesRoundTrip | htmlTag/aiBackend/models/business.py:19-24 | tier names round-trip, and exactly the four names parse |
| Business.TierTable | htmlTag/aiBackend/models/business.py:175-200 | the limits table: the free row, strictly rising limits, enterprise unlimited, cross-site tracking for all paid tiers, export for growth and enterprise |
| ServerData.AsItems | htmlTag/aiBackend/server_integrated.py:499-510 | storing events keeps their number and order, each as a dictionary |
| ServerData.DictsOnly | htmlTag/aiBackend/server_integrated.py:620-631 | cleaning keeps exactly the dictionary entries and never adds any |
| ServerData.CleanHistory | htmlTag/aiBackend/server_integrated.py:620-631 | the loop keeps exactly the dictionary entries in order |
| ServerData.DictsOnlyAppend | htmlTag/aiBackend/server_integrated.py:620-631 | cleaning distributes over concatenation |
| ServerData.DictsOnlyKeepsDicts | htmlTag/aiBackend/server_integrated.py:620-631 | cleaning a history of dictionaries changes nothing |
| ServerData.CleanAfterStore | htmlTag/aiBackend/server_integrated.py:620-631 | cleaning what was stored gives back the stored events |
| ServerIntegrated.CountsOf | htmlTag/aiBackend/server_integrated.py:73-90 | every counter is at most the number of events, and the total is that number |
| ServerIntegrated.ScoresOf | htmlTag/aiBackend/server_integrated.py:92-99 | all seven signals lie in [0, 1] |
| ServerIntegrated.Classify | htmlTag/aiBackend/server_integrated.py:107-151 | the reported confidence lies between 0.55 and 0.85 |
| ServerIntegrated.MockLog | htmlTag/aiBackend/server_integrated.py:102-153 | the log has six lines, or seven exactly when a rule adds a note; three analytics lines open it and the identity, decision and guardrail lines close it |
| ServerIntegrated.MockProcessSession | htmlTag/aiBackend/server_integrated.py:65-256 | the method returns the mock outcome of the history |
| ServerIntegrated.GetOrCreateSession | htmlTag/aiBackend/server_integrated.py:610-654 | the method loads or creates the session as the loader function does |
| ServerIntegrated.FrustrationWins | htmlTag/aiBackend/server_integrated.py:108-112 | frustration exceeds 0.4 exactly when twice the rage clicks plus the dead clicks exceed 2, and then the result is OVERWHELMED at 0.85 whatever else happened |
| ServerIntegrated.EmptyHistoryIsExploratory | htmlTag/aiBackend/server_integrated.py:149-151 | no events give EXPLORATORY at 0.55, the exploratory hero and a six-line log |
| ServerIntegrated.MockResponseShape | htmlTag/aiBackend/server_integrated.py:228-256 | the summary counts all events, the confidence is in range, focus is 0.5 and the log opens with the analytics lines |
| ServerIntegrated.UnnamedBatchEventBreaksScan | htmlTag/aiBackend/server_integrated.py:77-80 | as written, a batch event sent without a name makes the scan raise |
| ServerIntegrated.CorrectedScanAgrees | htmlTag/aiBackend/server_integrated.py:77-80 | wherever the written scan succeeds, the corrected text is the same |
| ServerIntegrated.NoneTextMatchesNothing | htmlTag/aiBackend/server_integrated.py:77-90 | the corrected text of a null name matches no counted keyword or name |
| ServerIntegrated.UnmatchedEventCountsOnlyTotal | htmlTag/aiBackend/server_integrated.py:77-90 | an event whose name matches nothing is counted only in the total |
| ServerIntegrated.NoneNameCountsOnlyTotal | htmlTag/aiBackend/server_integrated.py:77-90 | with the correction, an unnamed batch event is counted only in the total |
| ServerIntegrated.LoneUnmatchedEventIsExploratory | htmlTag/aiBackend/server_integrated.py:93-151 | a single event that matches nothing gives EXPLORATORY at 0.55 |
| ServerIntegrated.CorrectedScanClassifiesUnnamedEvent | htmlTag/aiBackend/server_integrated.py:77-151 | with the correction, a lone unnamed batch event is classified EXPLORATORY at 0.55 instead of raising |
| ServerIntegrated.LoadedSessionShape | htmlTag/aiBackend/server_integrated.py:610-654 | a loaded session keeps only its dictionary events, in order, and nothing else changes; a new one is empty, unidentified and in English |
| ServerMultitenant.CheckUsage | htmlTag/aiBackend/server_multitenant.py:92-104 | an unknown key is 401; success returns the stored tier |
| ServerMultitenant.UsageOutcome | htmlTag/aiBackend/server_multitenant.py:92-104 | an unknown tier is 500; for a known tier the request is refused (429) exactly when the tier is limited and usage has reached the limit; enterprise is never refused |
| ServerMultitenant.FreeTierBoundary | htmlTag/aiBackend/server_multitenant.py:99-102 | the free tier accepts at 9999 used, refuses at 10000, and treats a missing counter as 0 |
| ServerMultitenant.RequestedAgreement | htmlTag/aiBackend/server_multitenant.py:302-315 | a requested agreement is pending from caller to partner, always shares vectors and identities, and shares conversions and raw events only when asked |
| ServerMultitenant.RequestSharingOutcome | htmlTag/aiBackend/server_multitenant.py:273-323 | 403 exactly for a tier without cross-site tracking or at the partner limit (always for free); success needs a known partner and no open agreement, and adds only the new pending agreement |
| ServerMultitenant.RequestSharingNotRepeated | htmlTag/aiBackend/server_multitenant.py:293-300 | repeating a successful request is refused |
| ServerMultitenant.AddToSet | htmlTag/aiBackend/server_multitenant.py:370-377 | `$addToSet` adds the element, keeps the others, adds nothing else and creates no duplicates |
| ServerMultitenant.Pull | htmlTag/aiBackend/server_multitenant.py:417-424 | `$pull` removes every copy of the element and keeps everything else |
| ServerMultitenant.OtherPartyIsCounterparty | htmlTag/aiBackend/server_multitenant.py:416 | the other party is a side of the agreement and is not the caller |
| ServerMultitenant.AcceptThenRevoke | htmlTag/aiBackend/server_multitenant.py:348-426 | accepting makes the agreement active and links both businesses; revoking it then succeeds, marks it revoked and unlinks both |
| ServerMultitenant.GetOrCreateSession | htmlTag/aiBackend/server_multitenant.py:874-923 | the method loads or creates the session as the loader function does |
| ServerMultitenant.WindowOfHistory | htmlTag/aiBackend/server_multitenant.py:886-896 | a loaded history has at most 50 events, all of them dictionaries |
| ServerMultitenant.WindowOfDictHistory | htmlTag/aiBackend/server_multitenant.py:886-896 | for a history of dictionaries the window is exactly its last 50 entries |
| ServerMultitenant.LoadedSessionWindow | htmlTag/aiBackend/server_multitenant.py:881-897 | a loaded session changes only its history, which becomes the dictionaries among the last 50 stored entries |
| ServerMultitenant.NewSessionShape | htmlTag/aiBackend/server_multitenant.py:899-923 | a new session belongs to the caller's business and starts empty and unidentified |
| ServerMultitenant.CountsOf | htmlTag/aiBackend/server_multitenant.py:1023-1033 | every counter is at most the number of events, and the total is that number |
| ServerMultitenant.ScoresOf | htmlTag/aiBackend/server_multitenant.py:1035-1040 | all five signals lie in [0, 1] |
| ServerMultitenant.Boost | htmlTag/aiBackend/server_multitenant.py:1043-1046 | the boost is 0 or 0.2 |
| ServerMultitenant.AdjustedScores | htmlTag/aiBackend/server_multitenant.py:1047-1048 | more than two cross-site visits raise velocity by 0.15, capped at 1; nothing else changes |
| ServerMultitenant.FrustrationWins | htmlTag/aiBackend/server_multitenant.py:1051-1053 | frustration exceeds 0.4 exactly when twice the rage clicks plus the dead clicks exceed 2, and then the result is OVERWHELMED at 0.85 whatever else happened |
| ServerMultitenant.ClassifyNeverReady | htmlTag/aiBackend/server_multitenant.py:1050-1078 | the rule chain never says READY_TO_DECIDE, and every state it says has its own variant |
| ServerMultitenant.NeverReadyToDecide | htmlTag/aiBackend/server_multitenant.py:1050-1096 | the mock never reports READY_TO_DECIDE, always shows the variant of the reported state, and would fall back to exploratory for it |
| ServerMultitenant.ReportedConfidence | htmlTag/aiBackend/server_multitenant.py:1054-1095 | the reported confidence lies in [0, 1]; an impulse buyer reports 1.0 with the boost and 0.8 without; without a profile it is at most 0.85; the result is marked enhanced exactly when a profile was given |
| ServerMultitenant.ProfileWithoutSignalsChangesNothing | htmlTag/aiBackend/server_multitenant.py:1042-1095 | a profile with at most two visits and no impulse-buyer sighting changes only the enhanced flag |
| ServerAnalytics.ListVariants | htmlTag/aiBackend/server_analytics.py:79-112 | the listing holds one row per component variant with content, users in order; it counts every user and every row |
| ServerAnalytics.ListComponent | htmlTag/aiBackend/server_analytics.py:94-105 | one component appends its listed variants |
| ServerAnalytics.ListUserVariants | htmlTag/aiBackend/server_analytics.py:88-105 | one user appends the rows of all their components, in order |
| ServerAnalytics.RowsFor | htmlTag/aiBackend/server_analytics.py:94-105 | a component yields at most two rows |
| ServerAnalytics.RowsForListed | htmlTag/aiBackend/server_analytics.py:94-105 | a component yields a row for A and for B exactly when that variant has content, A first |
| ServerAnalytics.RowsBounded | htmlTag/aiBackend/server_analytics.py:88-105 | the listing has at most two rows per component |
| ServerAnalytics.RowsHaveContent | htmlTag/aiBackend/server_analytics.py:94-105 | every row has content and names variant A or B |
| ServerAnalytics.TotalsOf | htmlTag/aiBackend/server_analytics.py:176-198 | every component is counted, and A and B wins together never exceed the components |
| ServerAnalytics.StatsOverview | htmlTag/aiBackend/server_analytics.py:161-215 | the nested loops compute the overview of the whole collection |
| ServerAnalytics.CountComponent | htmlTag/aiBackend/server_analytics.py:181-198 | one component updates the totals as the specification step does |
| ServerAnalytics.CountUserComponents | htmlTag/aiBackend/server_analytics.py:176-198 | one user's components update the totals in order |
| ServerAnalytics.WinRule | htmlTag/aiBackend/server_analytics.py:195-198 | A wins a component exactly when its score is higher, B likewise, and a tie is nobody's win |
| ServerAnalytics.SwapExchangesSides | htmlTag/aiBackend/server_analytics.py:176-198 | exchanging A and B everywhere exchanges wins and score totals and keeps components and trials |
| ServerAnalytics.EmptyOverview | htmlTag/aiBackend/server_analytics.py:200-214 | without components both averages are 0, nobody wins, no trials are counted and A leads |
| ServerAnalytics.LeaderRule | htmlTag/aiBackend/server_analytics.py:214 | A leads exactly when its reported average is at least B's; otherwise B leads |
| ServerAnalytics.MissingVariantsCountAsZero | htmlTag/aiBackend/server_analytics.py:183-193 | a component with both variants missing adds one component and nothing else |
| ServerAnalytics.TrialsNonNegative | htmlTag/aiBackend/server_analytics.py:192-193 | with non-negative trial counts the total is non-negative |
| ServerAnalytics.FindUser | htmlTag/aiBackend/server_analytics.py:231-234 | a user is found exactly when one has that id, and the one found has it |
| ServerAnalytics.VariantHistoryOutcome | htmlTag/aiBackend/server_analytics.py:221-248 | 400 exactly for a letter other than A or B in any case; 404 exactly for a valid letter and an unknown user; the version count is the history length plus 1 |
| ServerAnalytics.LowerCaseLetters | htmlTag/aiBackend/server_analytics.py:226-228 | "a" and "b" give the same answers as "A" and "B"; "C" is refused |

## Left out

- Network, database and HTTP layer: MongoDB, FastAPI routing, CORS and response serialisation are
  not modelled. Documents are datatypes, and a handler is a function from its inputs to a result
  or an `ApiError`.
- Language-model calls: the identity classifier is an input, `ClassifierAnswer`. Its JSON parsing
  is folded into that input: a failed call and a malformed answer are both `Failure`.
- The recency weight `exp(-age/300)` and `datetime.utcnow()`: both are inputs (`weightOf` and
  timestamp strings). Exponentials and clock arithmetic are not modelled. Each stage's `Process`
  stamps both of its audit entries with the one timestamp it is given, where the code reads the
  clock once per entry.
- Python's `round` and `.2f`/`.2%` float formatting: they are inputs (`round2`, `round3`,
  `fixed2`), so only the placement of the rounded and formatted values is modelled.
- Audit text with numbers: `AnalyticsAgent.DoneEntry` omits the three formatted feature values.
  The identity entry omits `(confidence=…)`, and the exploitation rationale omits the formatted
  conversion rate. Only the entry counts and the non-numeric lines are stated.
- Variant content of arbitrary JSON type: `UIVariant.content` is a map from strings to strings.
  The integrated server's trust badges are a string list.
- `Event.properties` beyond `time_seconds`, and event timestamps, are not modelled.
- `ServerAnalytics.VariantHistory`, `ServerIntegrated.CountsOf`, `ServerMultitenant.CountsOf`:
  `str.upper()` and `str.lower()` are modelled for ASCII letters only. Python maps other
  characters as well (the Kelvin sign lowers to "k"), so a name such as "CLIC\u212A" counts as a
  click in the code but not in the model.
- IdentityAgent.IdentityStep, IdentityAgent.Process, IdentityAgent.ClassifierOutcomes,
  Workflow.DemoPipelineLog and the rest of the workflow use the corrected `IdentityAgent.Interpret`
  (Findings row 1): a classifier confidence outside [0, 1] gives the rule-based fallback at 0.6,
  where the code stores it and the decision stage then raises. The code as written is
  `IdentityAgent.InterpretAsWritten`.
- ServerIntegrated.MockProcessSession, ServerIntegrated.MockResponseShape and
  ServerIntegrated.CountsOf use the corrected `ServerData.NameText` (Findings row 2): a stored event
  whose name is `None` counts only towards the total, where the code raises and the request fails
  with 500. The code as written is `ServerIntegrated.NameTextAsWritten`.
- `ServerData.SessionDoc.eventHistory`: `None` stands for a missing key only. A stored
  `event_history: null` makes both loaders raise, and the model cannot express it.
- Credential and id generators (`generate_api_key`, `generate_api_secret`, `generate_*_id`,
  `uuid4`): their results are inputs.
- `server.py`, `backend/main.py`, `backend/database.py` and `backend/test_workflow.py` are not
  part of this model.
- Endpoints outside the named core are not modelled:
  - registration, tier upgrade, pending-request listing;
  - cookie syncing and linking (`get_or_create_global_uid`);
  - event tracking, reward, dashboards, journeys;
  - `get_user_variants`.
  `get_cross_site_profile` is not modelled either; its result is the `CrossSiteProfile` input of
  the multi-tenant mock.
- `InteractionEvent` and `ScoreUpdateResult` in `models/scoring.py` are plain records that no
  modelled operation builds.
- `ServerMultitenant.RequestSharing`, `AcceptSharing` and `RevokeSharing` model the collections as
  maps keyed by id. The `find_one` queries become map lookups, and the response messages are
  left out.
- Concurrency between requests, and the atomicity of the database updates, are not modelled.

## Findings

| source | as written | input that shows it | evidently intended | confidence | as-written member | corrected member |
|---|---|---|---|---|---|---|
| backend/agents/identity_agent.py:81-86 | the classifier's confidence is stored with no range check | an answer `{"identity_state": "confident", "confidence": 85}`: the decision stage's record (`VariantDecision`, confidence between 0 and 1) then fails validation and the whole run raises | a confidence outside [0, 1] is treated like any other malformed answer, so the rule-based fallback at 0.6 applies | not executed | IdentityAgent.InterpretAsWritten (shown by IdentityAgent.AsWrittenKeepsOutOfRangeConfidence and Workflow.AsWrittenOutOfRangeConfidenceFails) | IdentityAgent.Interpret (its result is always in [0, 1]; Workflow.DemoPipelineApproved) |
| htmlTag/aiBackend/server_integrated.py:77-80 | the keyword scan calls `.lower()` on `e.get("event_name", "")`, which is `None` for an event stored by the batch endpoint without a name (lines 499-510) | a batch request with an event lacking `event_name`, followed by `/api/optimize` for the same user: the scan raises and the optimisation fails | the name is read as text first, as the multi-tenant server does with `str(...)` at server_multitenant.py:1027-1028, so such an event counts only towards the total | not executed | ServerIntegrated.NameTextAsWritten (shown by ServerIntegrated.UnnamedBatchEventBreaksScan) | ServerData.NameText (ServerIntegrated.CorrectedScanAgrees, ServerIntegrated.CorrectedScanClassifiesUnnamedEvent) |
