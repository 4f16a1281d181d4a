/** The analytics agent: the recency-weighted event history becomes a behavioural vector. */
module AnalyticsAgent {
  import opened Wrappers
  import opened Common
  import opened Text
  import opened Events

  const Name: string := "Analytics Agent"

  /** Width in seconds of the recency window. The weight exp(-age / window) of an event is an
      input of this model (the `weightOf` parameters), not computed here. */
  const RecencyWindowSeconds: nat := 300

  /** An event with its recency weight. */
  datatype WeightedEvent = WeightedEvent(event: Event, weight: real)

  /** A truthy `component_id`: present and not the empty string. */
  predicate HasComponent(e: Event)
  {
    e.componentId.Some? && e.componentId.value != ""
  }

  /** `properties.get("time_seconds", 0)`. */
  function TimeSeconds(e: Event): real
  {
    if "time_seconds" in e.properties then e.properties["time_seconds"] else 0.0
  }

  predicate IsBacktrack(t: EventType)
  {
    t == Backtrack
  }

  /** The funnel stages counted by the velocity feature. */
  predicate IsFunnel(t: EventType)
  {
    t == PageViewed || t == ComponentViewed || t == AddToCart || t == ConversionCompleted
  }

  /** An event whose time counts towards a component in the focus feature. */
  predicate IsTimedComponent(e: Event)
  {
    e.eventName == TimeOnComponent && HasComponent(e)
  }

  // ----- Specification: sums over the weighted events, one element at a time from the left -----

  function TotalWeight(ws: seq<WeightedEvent>): real
  {
    if ws == [] then 0.0 else TotalWeight(ws[..|ws| - 1]) + ws[|ws| - 1].weight
  }

  /** The summed weight of the events whose name satisfies p. */
  function WeightWhere(ws: seq<WeightedEvent>, p: EventType -> bool): real
  {
    if ws == [] then 0.0
    else WeightWhere(ws[..|ws| - 1], p) + (if p(ws[|ws| - 1].event.eventName) then ws[|ws| - 1].weight else 0.0)
  }

  /** The weighted time spent, over the TIME_ON_COMPONENT events. */
  function WeightedTime(ws: seq<WeightedEvent>): real
  {
    if ws == [] then 0.0
    else
      var we := ws[|ws| - 1];
      WeightedTime(ws[..|ws| - 1]) + (if we.event.eventName == TimeOnComponent then TimeSeconds(we.event) * we.weight else 0.0)
  }

  /** The distinct non-empty component ids. */
  function ComponentIds(ws: seq<WeightedEvent>): set<string>
  {
    if ws == [] then {}
    else
      var e := ws[|ws| - 1].event;
      ComponentIds(ws[..|ws| - 1]) + (if HasComponent(e) then {e.componentId.value} else {})
  }

  /** One step of the focus loop: a timed component event adds its weighted time to its id. */
  function AddTime(m: map<string, real>, we: WeightedEvent): map<string, real>
  {
    if IsTimedComponent(we.event) then
      var c := we.event.componentId.value;
      m[c := (if c in m then m[c] else 0.0) + TimeSeconds(we.event) * we.weight]
    else m
  }

  /** The weighted time per component, as the focus loop accumulates it. */
  function ComponentTimes(ws: seq<WeightedEvent>): map<string, real>
  {
    if ws == [] then map[] else AddTime(ComponentTimes(ws[..|ws| - 1]), ws[|ws| - 1])
  }

  /** The sum of m's values over the keys ks. */
  ghost function SumOver(m: map<string, real>, ks: set<string>): real
    requires ks <= m.Keys
    decreases ks
  {
    if ks == {} then 0.0 else var k :| k in ks; m[k] + SumOver(m, ks - {k})
  }

  /** The largest of m's values over the non-empty key set ks. */
  ghost function MaxOver(m: map<string, real>, ks: set<string>): real
    requires ks <= m.Keys && ks != {}
    decreases ks
  {
    var k :| k in ks;
    if ks == {k} then m[k]
    else var rest := MaxOver(m, ks - {k}); if m[k] > rest then m[k] else rest
  }

  // ----- Specification: the five features -----

  function Exploration(ws: seq<WeightedEvent>): real
  {
    if TotalWeight(ws) == 0.0 then 0.5 else Min(|ComponentIds(ws)| as real / 5.0, 1.0)
  }

  function Hesitation(ws: seq<WeightedEvent>): real
  {
    var total := TotalWeight(ws);
    if total == 0.0 then 0.5 else Min(WeightWhere(ws, IsBacktrack) / total, 1.0)
  }

  function Engagement(ws: seq<WeightedEvent>): real
  {
    if TotalWeight(ws) == 0.0 then 0.5 else Min(WeightedTime(ws) / 60.0, 1.0)
  }

  function Velocity(ws: seq<WeightedEvent>): real
  {
    var total := TotalWeight(ws);
    if total == 0.0 then 0.5 else Min(WeightWhere(ws, IsFunnel) / total, 1.0)
  }

  ghost function Focus(ws: seq<WeightedEvent>): real
  {
    var m := ComponentTimes(ws);
    if m == map[] then 0.5
    else
      var total := SumOver(m, m.Keys);
      if total == 0.0 then 0.5 else MaxOver(m, m.Keys) / total
  }

  const Neutral: BehavioralVector := BehavioralVector(0.5, 0.5, 0.5, 0.5, 0.5)

  /** Each event paired with its recency weight. */
  function Weigh(events: seq<Event>, weightOf: Event -> real): (ws: seq<WeightedEvent>)
    ensures |ws| == |events|
    ensures forall i :: 0 <= i < |ws| ==> ws[i] == WeightedEvent(events[i], weightOf(events[i]))
  {
    seq(|events|, i requires 0 <= i < |events| => WeightedEvent(events[i], weightOf(events[i])))
  }

  /** The vector the agent computes, or None where building it fails validation. */
  ghost function VectorOf(events: seq<Event>, weightOf: Event -> real): Option<BehavioralVector>
  {
    if events == [] then Some(Neutral)
    else
      var ws := Weigh(events, weightOf);
      MakeVector(Exploration(ws), Hesitation(ws), Engagement(ws), Velocity(ws), Focus(ws))
  }

  /** What `process` does to a session. */
  ghost function AnalyticsStep(s: SessionState, weightOf: Event -> real, timestamp: string)
    : Result<SessionState, StageError>
  {
    match VectorOf(s.eventHistory, weightOf)
    case None => Err(InvalidBehavioralVector)
    case Some(v) =>
      Ok(s.(behavioralVector := Some(v),
            auditLog := s.auditLog + [Stamp(timestamp, StartEntry(|s.eventHistory|)), Stamp(timestamp, DoneEntry)]))
  }

  function StartEntry(n: nat): string
  {
    Name + ": Computing behavioral vector from " + NatToString(n) + " events"
  }

  const DoneEntry: string := Name + ": Vector computed"

  // ----- The agent -----

  /** `process`: compute the vector, store it, and log two entries. */
  method Process(session: UserSession, weightOf: Event -> real, timestamp: string)
    returns (err: Option<StageError>)
    modifies session
    ensures Applied(AnalyticsStep(old(session.Value()), weightOf, timestamp), err, old(session.Value()), session.Value())
  {
    var vector := ComputeBehavioralVector(session.eventHistory, weightOf);
    if vector.None? {
      return Some(InvalidBehavioralVector);
    }
    session.AddAuditEntry(timestamp, StartEntry(|session.eventHistory|));
    session.behavioralVector := vector;
    session.AddAuditEntry(timestamp, DoneEntry);
    err := None;
  }

  /** `_compute_behavioral_vector`: the neutral vector for no events, otherwise the five
      features of the weighted events. */
  method ComputeBehavioralVector(events: seq<Event>, weightOf: Event -> real)
    returns (v: Option<BehavioralVector>)
    ensures v == VectorOf(events, weightOf)
  {
    if events == [] {
      return Some(Neutral);
    }
    var weighted: seq<WeightedEvent> := [];
    for i := 0 to |events|
      invariant weighted == Weigh(events[..i], weightOf)
    {
      weighted := weighted + [WeightedEvent(events[i], weightOf(events[i]))];
    }
    assert events[..|events|] == events;
    var exploration := ComputeExploration(weighted);
    var hesitation := ComputeHesitation(weighted);
    var engagement := ComputeEngagement(weighted);
    var velocity := ComputeVelocity(weighted);
    var focus := ComputeFocus(weighted);
    v := MakeVector(exploration, hesitation, engagement, velocity, focus);
  }

  method ComputeExploration(ws: seq<WeightedEvent>) returns (r: real)
    ensures r == Exploration(ws)
  {
    var unique: set<string> := {};
    var total := 0.0;
    for i := 0 to |ws|
      invariant unique == ComponentIds(ws[..i]) && total == TotalWeight(ws[..i])
    {
      assert ws[..i + 1][..i] == ws[..i];
      if HasComponent(ws[i].event) {
        unique := unique + {ws[i].event.componentId.value};
      }
      total := total + ws[i].weight;
    }
    assert ws[..|ws|] == ws;
    if total == 0.0 {
      return 0.5;
    }
    r := Min(|unique| as real / 5.0, 1.0);
  }

  method ComputeHesitation(ws: seq<WeightedEvent>) returns (r: real)
    ensures r == Hesitation(ws)
  {
    var backtrack := 0.0;
    var total := 0.0;
    for i := 0 to |ws|
      invariant backtrack == WeightWhere(ws[..i], IsBacktrack) && total == TotalWeight(ws[..i])
    {
      assert ws[..i + 1][..i] == ws[..i];
      if ws[i].event.eventName == Backtrack {
        backtrack := backtrack + ws[i].weight;
      }
      total := total + ws[i].weight;
    }
    assert ws[..|ws|] == ws;
    if total == 0.0 {
      return 0.5;
    }
    r := Min(backtrack / total, 1.0);
  }

  method ComputeEngagement(ws: seq<WeightedEvent>) returns (r: real)
    ensures r == Engagement(ws)
  {
    var totalTime := 0.0;
    var total := 0.0;
    for i := 0 to |ws|
      invariant totalTime == WeightedTime(ws[..i]) && total == TotalWeight(ws[..i])
    {
      assert ws[..i + 1][..i] == ws[..i];
      if ws[i].event.eventName == TimeOnComponent {
        totalTime := totalTime + TimeSeconds(ws[i].event) * ws[i].weight;
      }
      total := total + ws[i].weight;
    }
    assert ws[..|ws|] == ws;
    if total == 0.0 {
      return 0.5;
    }
    r := Min(totalTime / 60.0, 1.0);
  }

  method ComputeVelocity(ws: seq<WeightedEvent>) returns (r: real)
    ensures r == Velocity(ws)
  {
    var funnel := 0.0;
    var total := 0.0;
    for i := 0 to |ws|
      invariant funnel == WeightWhere(ws[..i], IsFunnel) && total == TotalWeight(ws[..i])
    {
      assert ws[..i + 1][..i] == ws[..i];
      if IsFunnel(ws[i].event.eventName) {
        funnel := funnel + ws[i].weight;
      }
      total := total + ws[i].weight;
    }
    assert ws[..|ws|] == ws;
    if total == 0.0 {
      return 0.5;
    }
    r := Min(funnel / total, 1.0);
  }

  /** `_compute_focus`: per-component weighted times in a dictionary, then the largest of them
      over their sum (the source sorts the values and takes the first). */
  method ComputeFocus(ws: seq<WeightedEvent>) returns (r: real)
    ensures r == Focus(ws)
  {
    var times := CollectComponentTimes(ws);
    if times == map[] {
      return 0.5;
    }
    var total := SumValues(times);
    if total == 0.0 {
      return 0.5;
    }
    var top := LargestValue(times);
    r := top / total;
  }

  /** The dictionary loop of `_compute_focus`. */
  method CollectComponentTimes(ws: seq<WeightedEvent>) returns (times: map<string, real>)
    ensures times == ComponentTimes(ws)
  {
    times := map[];
    for i := 0 to |ws|
      invariant times == ComponentTimes(ws[..i])
    {
      assert ws[..i + 1][..i] == ws[..i];
      times := AddTime(times, ws[i]);
    }
    assert ws[..|ws|] == ws;
  }

  /** `sum(component_times.values())`. */
  method SumValues(times: map<string, real>) returns (total: real)
    ensures total == SumOver(times, times.Keys)
  {
    total := 0.0;
    var done: set<string> := {};
    var rest := times.Keys;
    while rest != {}
      invariant done + rest == times.Keys && done !! rest
      invariant total == SumOver(times, done)
      decreases rest
    {
      var k :| k in rest;
      SumOverRemove(times, done + {k}, k);
      assert done + {k} - {k} == done;
      total := total + times[k];
      done, rest := done + {k}, rest - {k};
    }
  }

  /** The first of the values sorted in decreasing order, that is, the largest. */
  method LargestValue(times: map<string, real>) returns (top: real)
    requires times != map[]
    ensures top == MaxOver(times, times.Keys)
  {
    var k0 :| k0 in times;
    top := times[k0];
    ghost var arg := k0;
    var done, rest := {k0}, times.Keys - {k0};
    while rest != {}
      invariant done + rest == times.Keys && done !! rest
      invariant arg in done && top == times[arg]
      invariant forall j :: j in done ==> times[j] <= top
      decreases rest
    {
      var k :| k in rest;
      if times[k] > top {
        top, arg := times[k], k;
      }
      done, rest := done + {k}, rest - {k};
    }
    MaxOverIsMax(times, times.Keys);
  }

  // ----- Lemmas about the specification -----

  /** Summing over a key set equals taking any one of its keys out first. */
  lemma {:induction false} SumOverRemove(m: map<string, real>, ks: set<string>, k: string)
    requires ks <= m.Keys && k in ks
    ensures SumOver(m, ks) == m[k] + SumOver(m, ks - {k})
    decreases ks
  {
    var j :| j in ks && SumOver(m, ks) == m[j] + SumOver(m, ks - {j});
    if j != k {
      SumOverRemove(m, ks - {j}, k);
      SumOverRemove(m, ks - {k}, j);
      assert ks - {j} - {k} == ks - {k} - {j};
    }
  }

  /** MaxOver is one of the values and bounds all of them. */
  lemma {:induction false} MaxOverIsMax(m: map<string, real>, ks: set<string>)
    requires ks <= m.Keys && ks != {}
    ensures exists k :: k in ks && MaxOver(m, ks) == m[k]
    ensures forall k :: k in ks ==> m[k] <= MaxOver(m, ks)
    decreases ks
  {
    var k :| k in ks && MaxOver(m, ks) == (if ks == {k} then m[k] else
      var rest := MaxOver(m, ks - {k}); if m[k] > rest then m[k] else rest);
    if ks != {k} {
      MaxOverIsMax(m, ks - {k});
    }
  }

  ghost predicate NonNegativeWeights(ws: seq<WeightedEvent>)
  {
    forall i :: 0 <= i < |ws| ==> ws[i].weight >= 0.0
  }

  /** Every TIME_ON_COMPONENT event reports a non-negative time. */
  ghost predicate NonNegativeTimes(ws: seq<WeightedEvent>)
  {
    forall i :: 0 <= i < |ws| ==> ws[i].event.eventName == TimeOnComponent ==> TimeSeconds(ws[i].event) >= 0.0
  }

  /** The weight of any class of events lies between 0 and the total weight. */
  lemma {:induction false} WeightWhereBounded(ws: seq<WeightedEvent>, p: EventType -> bool)
    requires NonNegativeWeights(ws)
    ensures 0.0 <= WeightWhere(ws, p) <= TotalWeight(ws)
  {
    if ws != [] {
      WeightWhereBounded(ws[..|ws| - 1], p);
    }
  }

  /** Hesitation lies in [0,1] when the weights are non-negative. */
  lemma HesitationInUnit(ws: seq<WeightedEvent>)
    requires NonNegativeWeights(ws)
    ensures InUnit(Hesitation(ws))
  {
    WeightWhereBounded(ws, IsBacktrack);
  }

  /** Velocity lies in [0,1] when the weights are non-negative. */
  lemma VelocityInUnit(ws: seq<WeightedEvent>)
    requires NonNegativeWeights(ws)
    ensures InUnit(Velocity(ws))
  {
    WeightWhereBounded(ws, IsFunnel);
  }

  /** Weighted time is non-negative when weights and times are. */
  lemma {:induction false} WeightedTimeNonNegative(ws: seq<WeightedEvent>)
    requires NonNegativeWeights(ws) && NonNegativeTimes(ws)
    ensures WeightedTime(ws) >= 0.0
  {
    if ws != [] {
      WeightedTimeNonNegative(ws[..|ws| - 1]);
      var we := ws[|ws| - 1];
      if we.event.eventName == TimeOnComponent {
        assert TimeSeconds(we.event) * we.weight >= 0.0;
      }
    }
  }

  /** Engagement never exceeds 1, and is at least 0 when weights and times are non-negative. */
  lemma EngagementBounds(ws: seq<WeightedEvent>)
    ensures Engagement(ws) <= 1.0
    ensures NonNegativeWeights(ws) && NonNegativeTimes(ws) ==> Engagement(ws) >= 0.0
  {
    if NonNegativeWeights(ws) && NonNegativeTimes(ws) {
      WeightedTimeNonNegative(ws);
    }
  }

  /** The distinct component ids are those of the events that carry one, whatever the weights. */
  lemma {:induction false} ComponentIdsOfEvents(ws: seq<WeightedEvent>)
    ensures ComponentIds(ws) == set i | 0 <= i < |ws| && HasComponent(ws[i].event) :: ws[i].event.componentId.value
  {
    if ws != [] {
      ComponentIdsOfEvents(ws[..|ws| - 1]);
    }
  }

  /** The distinct component ids do not depend on the weights. */
  lemma {:induction false} ComponentIdsIgnoreWeights(ws1: seq<WeightedEvent>, ws2: seq<WeightedEvent>)
    requires |ws1| == |ws2| && forall i :: 0 <= i < |ws1| ==> ws1[i].event == ws2[i].event
    ensures ComponentIds(ws1) == ComponentIds(ws2)
  {
    if ws1 != [] {
      ComponentIdsIgnoreWeights(ws1[..|ws1| - 1], ws2[..|ws2| - 1]);
    }
  }

  /** Exploration is in [0,1], and two weightings of the same events that both have a non-zero
      total give the same exploration. */
  lemma ExplorationIgnoresWeights(events: seq<Event>, w1: Event -> real, w2: Event -> real)
    requires TotalWeight(Weigh(events, w1)) != 0.0 && TotalWeight(Weigh(events, w2)) != 0.0
    ensures Exploration(Weigh(events, w1)) == Exploration(Weigh(events, w2))
    ensures InUnit(Exploration(Weigh(events, w1)))
  {
    ComponentIdsIgnoreWeights(Weigh(events, w1), Weigh(events, w2));
  }

  /** The focus dictionary holds exactly the ids of the timed component events, and its values
      are non-negative when weights and times are. */
  lemma {:induction false} ComponentTimesShape(ws: seq<WeightedEvent>)
    ensures ComponentTimes(ws).Keys == set i | 0 <= i < |ws| && IsTimedComponent(ws[i].event) :: ws[i].event.componentId.value
    ensures NonNegativeWeights(ws) && NonNegativeTimes(ws) ==> forall c :: c in ComponentTimes(ws) ==> ComponentTimes(ws)[c] >= 0.0
  {
    if ws != [] {
      ComponentTimesShape(ws[..|ws| - 1]);
      var we := ws[|ws| - 1];
      if NonNegativeWeights(ws) && NonNegativeTimes(ws) && IsTimedComponent(we.event) {
        assert TimeSeconds(we.event) * we.weight >= 0.0;
      }
    }
  }

  /** A sum of non-negative values is at least each of them. */
  lemma SumOverAtLeast(m: map<string, real>, ks: set<string>, k: string)
    requires ks <= m.Keys && k in ks
    requires forall j :: j in ks ==> m[j] >= 0.0
    ensures m[k] <= SumOver(m, ks)
  {
    SumOverRemove(m, ks, k);
    SumOverNonNegative(m, ks - {k});
  }

  lemma {:induction false} SumOverNonNegative(m: map<string, real>, ks: set<string>)
    requires ks <= m.Keys
    requires forall j :: j in ks ==> m[j] >= 0.0
    ensures SumOver(m, ks) >= 0.0
    decreases ks
  {
    if ks != {} {
      var k :| k in ks && SumOver(m, ks) == m[k] + SumOver(m, ks - {k});
      SumOverNonNegative(m, ks - {k});
    }
  }

  /** A positive sum has a positive term. */
  lemma {:induction false} SumOverPositive(m: map<string, real>, ks: set<string>)
    requires ks <= m.Keys && SumOver(m, ks) > 0.0
    ensures exists k :: k in ks && m[k] > 0.0
    decreases ks
  {
    var k :| k in ks && SumOver(m, ks) == m[k] + SumOver(m, ks - {k});
    if m[k] <= 0.0 {
      SumOverPositive(m, ks - {k});
    }
  }

  lemma RatioInUnit(a: real, b: real)
    requires 0.0 < a <= b
    ensures 0.0 < a / b <= 1.0
  {
    assert a / b <= b / b;
  }

  /** The largest of non-negative values, over their non-zero sum, lies in (0,1]. */
  lemma MaxShareInUnit(m: map<string, real>)
    requires m != map[] && forall c :: c in m ==> m[c] >= 0.0
    requires SumOver(m, m.Keys) != 0.0
    ensures 0.0 < MaxOver(m, m.Keys) / SumOver(m, m.Keys) <= 1.0
  {
    assert exists c :: c in m.Keys;
    SumOverNonNegative(m, m.Keys);
    SumOverPositive(m, m.Keys);
    MaxOverIsMax(m, m.Keys);
    var kt :| kt in m.Keys && MaxOver(m, m.Keys) == m[kt];
    SumOverAtLeast(m, m.Keys, kt);
    RatioInUnit(MaxOver(m, m.Keys), SumOver(m, m.Keys));
  }

  /** Focus is 0.5 when no event is a timed component event. */
  lemma FocusNeutralWithoutTimes(ws: seq<WeightedEvent>)
    requires forall i :: 0 <= i < |ws| ==> !IsTimedComponent(ws[i].event)
    ensures Focus(ws) == 0.5
  {
    ComponentTimesShape(ws);
    assert ComponentTimes(ws).Keys == {};
  }

  /** For non-negative weights and times, focus is 0.5 or lies in (0,1]. */
  lemma FocusBounds(ws: seq<WeightedEvent>)
    requires NonNegativeWeights(ws) && NonNegativeTimes(ws)
    ensures Focus(ws) == 0.5 || 0.0 < Focus(ws) <= 1.0
  {
    ComponentTimesShape(ws);
    var m := ComponentTimes(ws);
    if m != map[] && SumOver(m, m.Keys) != 0.0 {
      MaxShareInUnit(m);
    }
  }

  /** With non-negative weights and times the agent always builds a valid vector (no validation
      failure), and an empty history gives 0.5 for every feature. */
  lemma VectorAlwaysValid(events: seq<Event>, weightOf: Event -> real)
    requires forall i :: 0 <= i < |events| ==> weightOf(events[i]) >= 0.0
    requires forall i :: 0 <= i < |events| ==> events[i].eventName == TimeOnComponent ==> TimeSeconds(events[i]) >= 0.0
    ensures VectorOf(events, weightOf).Some? && VectorOf(events, weightOf).value.Valid()
    ensures events == [] ==> VectorOf(events, weightOf) == Some(BehavioralVector(0.5, 0.5, 0.5, 0.5, 0.5))
  {
    if events != [] {
      var ws := Weigh(events, weightOf);
      HesitationInUnit(ws);
      VelocityInUnit(ws);
      EngagementBounds(ws);
      FocusBounds(ws);
    }
  }
}
