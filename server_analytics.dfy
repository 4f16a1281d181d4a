/** The analytics dashboard: over the stored A/B variants of every user's components, the list of
    variants with content, the overview statistics, and one variant's history. */
module ServerAnalytics {
  import opened Wrappers
  import opened Text
  import opened ServerData

  /** One stored variant (A or B) of a component; every field may be missing. */
  datatype VariantDoc = VariantDoc(
    currentHtml: Option<string>, currentScore: Option<real>,
    numberOfTrials: Option<int>, history: Option<seq<string>>)

  const EmptyVariant: VariantDoc := VariantDoc(None, None, None, None)

  /** A component's two variants; a missing one reads as an empty document. */
  datatype ComponentDoc = ComponentDoc(a: Option<VariantDoc>, b: Option<VariantDoc>)

  /** A user document: the id, when present, and the components in stored order. */
  datatype UserRecord = UserRecord(userId: Option<string>, components: seq<(string, ComponentDoc)>)

  function VariantOrEmpty(v: Option<VariantDoc>): VariantDoc
  {
    if v.Some? then v.value else EmptyVariant
  }

  function ScoreOf(v: VariantDoc): real
  {
    if v.currentScore.Some? then v.currentScore.value else 0.0
  }

  function TrialsOf(v: VariantDoc): int
  {
    if v.numberOfTrials.Some? then v.numberOfTrials.value else 0
  }

  function HistoryOf(v: VariantDoc): seq<string>
  {
    if v.history.Some? then v.history.value else []
  }

  /** One component of one user, as the dashboard loops visit it. */
  datatype Entry = Entry(userId: string, componentId: string, doc: ComponentDoc)

  function UserIdText(u: UserRecord): string
  {
    if u.userId.Some? then u.userId.value else "unknown"
  }

  /** A user's components, each tagged with the user's id. */
  function EntriesOf(u: UserRecord): seq<Entry>
  {
    seq(|u.components|, j requires 0 <= j < |u.components| => Entry(UserIdText(u), u.components[j].0, u.components[j].1))
  }

  /** Every component of every user, users first, in stored order. */
  function Flatten(users: seq<UserRecord>): seq<Entry>
  {
    if users == [] then [] else Flatten(users[..|users| - 1]) + EntriesOf(users[|users| - 1])
  }

  /** The components of the first i + 1 users: those of the first i, then user i's. */
  lemma FlattenNext(users: seq<UserRecord>, i: nat)
    requires i < |users|
    ensures Flatten(users[..i + 1]) == Flatten(users[..i]) + EntriesOf(users[i])
  {
    assert users[..i + 1][..i] == users[..i];
  }

  // ----- Variant list -----

  /** A row of the variant list. */
  datatype VariantRow = VariantRow(
    userId: string, componentId: string, variant: string, html: string,
    score: real, trials: int, historyCount: nat)

  /** A variant is listed when its `current_html` is a non-empty string. */
  predicate Listed(v: VariantDoc)
  {
    v.currentHtml.Some? && v.currentHtml.value != ""
  }

  function RowFor(e: Entry, letter: string, v: VariantDoc, round2: real -> real): VariantRow
  {
    VariantRow(e.userId, e.componentId, letter, if v.currentHtml.Some? then v.currentHtml.value else "",
               round2(ScoreOf(v)), TrialsOf(v), |HistoryOf(v)|)
  }

  /** The rows of one component: A, then B, each only when listed. */
  function RowsFor(e: Entry, round2: real -> real): (r: seq<VariantRow>)
    ensures |r| <= 2
  {
    var va := VariantOrEmpty(e.doc.a);
    var vb := VariantOrEmpty(e.doc.b);
    (if Listed(va) then [RowFor(e, "A", va, round2)] else [])
      + (if Listed(vb) then [RowFor(e, "B", vb, round2)] else [])
  }

  /** The variant list over a sequence of components: at most two rows each, none without content. */
  function Rows(es: seq<Entry>, round2: real -> real): (r: seq<VariantRow>)
  {
    if es == [] then [] else Rows(es[..|es| - 1], round2) + RowsFor(es[|es| - 1], round2)
  }

  lemma RowsNext(pre: seq<Entry>, e: Entry, round2: real -> real)
    ensures Rows(pre + [e], round2) == Rows(pre, round2) + RowsFor(e, round2)
  {
    assert (pre + [e])[..|pre + [e]| - 1] == pre;
  }

  datatype VariantList = VariantList(status: string, totalUsers: nat, totalVariants: nat, variants: seq<VariantRow>)

  /** `get_all_variants`: users, then their components, then A and B. */
  method ListVariants(users: seq<UserRecord>, round2: real -> real) returns (result: VariantList)
    ensures result.variants == Rows(Flatten(users), round2)
    ensures result.totalUsers == |users| && result.totalVariants == |result.variants|
    ensures result.status == "ok"
  {
    var rows: seq<VariantRow> := [];
    for i := 0 to |users|
      invariant rows == Rows(Flatten(users[..i]), round2)
    {
      rows := ListUserVariants(rows, users[i], Flatten(users[..i]), round2);
      FlattenNext(users, i);
    }
    assert users[..|users|] == users;
    result := VariantList("ok", |users|, |rows|, rows);
  }

  /** The innermost loop of `get_all_variants`: A, then B, each appended when it has content. */
  method ListComponent(rows: seq<VariantRow>, e: Entry, round2: real -> real) returns (rows': seq<VariantRow>)
    ensures rows' == rows + RowsFor(e, round2)
  {
    rows' := rows;
    var va := VariantOrEmpty(e.doc.a);
    if Listed(va) {
      rows' := rows' + [RowFor(e, "A", va, round2)];
    }
    var vb := VariantOrEmpty(e.doc.b);
    if Listed(vb) {
      rows' := rows' + [RowFor(e, "B", vb, round2)];
    }
  }

  /** The inner loops of `get_all_variants` for one user: the rows of each component in turn. */
  method ListUserVariants(rows: seq<VariantRow>, u: UserRecord, ghost seen: seq<Entry>, round2: real -> real)
    returns (rows': seq<VariantRow>)
    requires rows == Rows(seen, round2)
    ensures rows' == Rows(seen + EntriesOf(u), round2)
  {
    var es := EntriesOf(u);
    rows' := rows;
    ghost var done := seen;
    assert seen + es[..0] == seen;
    for j := 0 to |es|
      invariant done == seen + es[..j]
      invariant rows' == Rows(done, round2)
    {
      var e := es[j];
      assert es[..j + 1] == es[..j] + [e];
      RowsNext(done, e, round2);
      var next := ListComponent(rows', e, round2);
      assert next == Rows(done + [e], round2);
      done := done + [e];
      rows' := next;
    }
    assert es[..|es|] == es;
  }

  // ----- Overview -----

  /** The running totals of the overview loop. */
  datatype Totals = Totals(components: nat, trials: int, aWins: nat, bWins: nat, aScore: real, bScore: real)

  /** One component's contribution: both scores and trial counts (missing as 0), and a win for the
      strictly higher score. */
  function Step(t: Totals, c: ComponentDoc): Totals
  {
    var va := VariantOrEmpty(c.a);
    var vb := VariantOrEmpty(c.b);
    Totals(t.components + 1, t.trials + TrialsOf(va) + TrialsOf(vb),
           t.aWins + (if ScoreOf(va) > ScoreOf(vb) then 1 else 0),
           t.bWins + (if ScoreOf(vb) > ScoreOf(va) then 1 else 0),
           t.aScore + ScoreOf(va), t.bScore + ScoreOf(vb))
  }

  /** The totals over a sequence of components: ties are no one's win, so the wins never exceed
      the components. */
  function TotalsOf(es: seq<Entry>): (t: Totals)
    ensures t.components == |es|
    ensures t.aWins + t.bWins <= t.components
  {
    if es == [] then Totals(0, 0, 0, 0, 0.0, 0.0) else Step(TotalsOf(es[..|es| - 1]), es[|es| - 1].doc)
  }

  lemma TotalsNext(pre: seq<Entry>, e: Entry)
    ensures TotalsOf(pre + [e]) == Step(TotalsOf(pre), e.doc)
  {
    assert (pre + [e])[..|pre + [e]| - 1] == pre;
  }

  datatype Overview = Overview(
    totalUsers: nat, totalTrials: int, aWins: nat, aAverage: real, bWins: nat, bAverage: real, overallLeader: string)

  /** An average as reported: the rounded mean, or 0 without components. */
  function Average(total: real, n: nat, round2: real -> real): real
  {
    if n > 0 then round2(total / n as real) else 0.0
  }

  /** The overview for the whole collection; the leader compares the rounded averages, ties
      going to A. */
  function OverviewOf(users: seq<UserRecord>, round2: real -> real): Overview
  {
    var t := TotalsOf(Flatten(users));
    var avgA := Average(t.aScore, t.components, round2);
    var avgB := Average(t.bScore, t.components, round2);
    Overview(|users|, t.trials, t.aWins, avgA, t.bWins, avgB, if avgA >= avgB then "A" else "B")
  }

  /** `get_stats_overview`: the counters are updated per component, then averaged. */
  method StatsOverview(users: seq<UserRecord>, round2: real -> real) returns (result: Overview)
    ensures result == OverviewOf(users, round2)
  {
    var t := Totals(0, 0, 0, 0, 0.0, 0.0);
    for i := 0 to |users|
      invariant t == TotalsOf(Flatten(users[..i]))
    {
      t := CountUserComponents(t, users[i], Flatten(users[..i]));
      FlattenNext(users, i);
    }
    assert users[..|users|] == users;
    var avgA := if t.components > 0 then round2(t.aScore / t.components as real) else 0.0;
    var avgB := if t.components > 0 then round2(t.bScore / t.components as real) else 0.0;
    result := Overview(|users|, t.trials, t.aWins, avgA, t.bWins, avgB, if avgA >= avgB then "A" else "B");
  }

  /** The body of the inner loop of `get_stats_overview`: one component's update of the counters. */
  method CountComponent(t: Totals, c: ComponentDoc) returns (t': Totals)
    ensures t' == Step(t, c)
  {
    t' := t.(components := t.components + 1);
    var va := VariantOrEmpty(c.a);
    var vb := VariantOrEmpty(c.b);
    var aScore, bScore := ScoreOf(va), ScoreOf(vb);
    t' := t'.(aScore := t'.aScore + aScore, bScore := t'.bScore + bScore);
    t' := t'.(trials := t'.trials + TrialsOf(va));
    t' := t'.(trials := t'.trials + TrialsOf(vb));
    if aScore > bScore {
      t' := t'.(aWins := t'.aWins + 1);
    } else if bScore > aScore {
      t' := t'.(bWins := t'.bWins + 1);
    }
  }

  /** The inner loop of `get_stats_overview` for one user: each component updates the counters. */
  method CountUserComponents(t: Totals, u: UserRecord, ghost seen: seq<Entry>) returns (t': Totals)
    requires t == TotalsOf(seen)
    ensures t' == TotalsOf(seen + EntriesOf(u))
  {
    var es := EntriesOf(u);
    t' := t;
    ghost var done := seen;
    assert seen + es[..0] == seen;
    for j := 0 to |es|
      invariant done == seen + es[..j]
      invariant t' == TotalsOf(done)
    {
      var e := es[j];
      assert es[..j + 1] == es[..j] + [e];
      TotalsNext(done, e);
      done := done + [e];
      t' := CountComponent(t', e.doc);
    }
    assert es[..|es|] == es;
  }

  // ----- Variant history -----

  datatype HistoryView = HistoryView(
    userId: string, componentId: string, variant: string, currentHtml: string,
    currentScore: real, history: seq<string>, totalVersions: nat)

  /** The first user document with this id. */
  function FindUser(users: seq<UserRecord>, userId: string): (r: Option<UserRecord>)
    ensures r.Some? <==> exists i :: 0 <= i < |users| && users[i].userId == Some(userId)
    ensures r.Some? ==> r.value in users && r.value.userId == Some(userId)
  {
    if users == [] then None
    else if users[0].userId == Some(userId) then Some(users[0])
    else FindUser(users[1..], userId)
  }

  /** `components.get(component_id, {})`. */
  function FindComponent(cs: seq<(string, ComponentDoc)>, componentId: string): ComponentDoc
  {
    if cs == [] then ComponentDoc(None, None)
    else if cs[0].0 == componentId then cs[0].1
    else FindComponent(cs[1..], componentId)
  }

  /** `get_variant_history`: the letter is upper-cased and must be A or B (400), before the user is
      looked up (404); a missing component or variant reads as empty. */
  function VariantHistory(users: seq<UserRecord>, userId: string, componentId: string, letter: string)
    : Result<HistoryView, ApiError>
  {
    var v := Upper(letter);
    if v != "A" && v != "B" then Err(ApiError(400, "Variant must be A or B"))
    else match FindUser(users, userId)
      case None => Err(ApiError(404, "User not found"))
      case Some(u) =>
        var c := FindComponent(u.components, componentId);
        var d := VariantOrEmpty(if v == "A" then c.a else c.b);
        Ok(HistoryView(userId, componentId, v, if d.currentHtml.Some? then d.currentHtml.value else "",
                       ScoreOf(d), HistoryOf(d), |HistoryOf(d)| + 1))
  }

  // ----- Lemmas -----

  /** Both sides of the win count: A wins a component exactly when its score is strictly higher,
      B likewise, and a tie is no one's win. */
  lemma WinRule(t: Totals, c: ComponentDoc)
    ensures var sa, sb := ScoreOf(VariantOrEmpty(c.a)), ScoreOf(VariantOrEmpty(c.b));
      && (Step(t, c).aWins == t.aWins + 1 <==> sa > sb)
      && (Step(t, c).bWins == t.bWins + 1 <==> sb > sa)
      && (sa == sb ==> Step(t, c).aWins == t.aWins && Step(t, c).bWins == t.bWins)
  {
  }

  function SwapEntry(e: Entry): Entry
  {
    e.(doc := ComponentDoc(e.doc.b, e.doc.a))
  }

  function SwapAll(es: seq<Entry>): (r: seq<Entry>)
    ensures |r| == |es| && forall i :: 0 <= i < |es| ==> r[i] == SwapEntry(es[i])
  {
    seq(|es|, i requires 0 <= i < |es| => SwapEntry(es[i]))
  }

  /** Exchanging A and B in every component exchanges the wins and the score totals and keeps the
      trial count. */
  lemma {:induction false} SwapExchangesSides(es: seq<Entry>)
    ensures var t, s := TotalsOf(es), TotalsOf(SwapAll(es));
      s == Totals(t.components, t.trials, t.bWins, t.aWins, t.bScore, t.aScore)
  {
    if es != [] {
      var n := |es| - 1;
      assert SwapAll(es)[..n] == SwapAll(es[..n]);
      SwapExchangesSides(es[..n]);
    }
  }

  /** Without components both averages are 0, A leads, and no trials are counted. */
  lemma EmptyOverview(users: seq<UserRecord>, round2: real -> real)
    requires forall i :: 0 <= i < |users| ==> users[i].components == []
    ensures var o := OverviewOf(users, round2);
      o.aAverage == 0.0 && o.bAverage == 0.0 && o.overallLeader == "A" && o.aWins == 0 && o.bWins == 0
      && o.totalTrials == 0 && o.totalUsers == |users|
  {
    NoComponentsFlattenEmpty(users);
  }

  lemma {:induction false} NoComponentsFlattenEmpty(users: seq<UserRecord>)
    requires forall i :: 0 <= i < |users| ==> users[i].components == []
    ensures Flatten(users) == []
  {
    if users != [] {
      NoComponentsFlattenEmpty(users[..|users| - 1]);
    }
  }

  /** The overall leader is A exactly when A's reported average is at least B's. */
  lemma LeaderRule(users: seq<UserRecord>, round2: real -> real)
    ensures var o := OverviewOf(users, round2);
      (o.overallLeader == "A" <==> o.aAverage >= o.bAverage) && (o.overallLeader == "B" <==> o.bAverage > o.aAverage)
  {
  }

  /** A component whose variants are both missing adds no trials, no score and no win. */
  lemma MissingVariantsCountAsZero(t: Totals)
    ensures Step(t, ComponentDoc(None, None)) == t.(components := t.components + 1)
  {
  }

  /** With non-negative trial counts everywhere, the total is non-negative. */
  lemma {:induction false} TrialsNonNegative(es: seq<Entry>)
    requires forall i :: 0 <= i < |es| ==>
      TrialsOf(VariantOrEmpty(es[i].doc.a)) >= 0 && TrialsOf(VariantOrEmpty(es[i].doc.b)) >= 0
    ensures TotalsOf(es).trials >= 0
  {
    if es != [] {
      TrialsNonNegative(es[..|es| - 1]);
    }
  }

  /** At most two rows per component. */
  lemma {:induction false} RowsBounded(es: seq<Entry>, round2: real -> real)
    ensures |Rows(es, round2)| <= 2 * |es|
  {
    if es != [] {
      RowsBounded(es[..|es| - 1], round2);
    }
  }

  /** Every listed row has content and names variant A or B. */
  lemma {:induction false} RowsHaveContent(es: seq<Entry>, round2: real -> real)
    ensures forall r :: r in Rows(es, round2) ==> r.html != "" && r.variant in {"A", "B"}
  {
    if es != [] {
      RowsHaveContent(es[..|es| - 1], round2);
    }
  }

  /** A component's listed variants are exactly those with content. */
  lemma RowsForListed(e: Entry, round2: real -> real)
    ensures var r := RowsFor(e, round2);
      && (|r| == 2 <==> Listed(VariantOrEmpty(e.doc.a)) && Listed(VariantOrEmpty(e.doc.b)))
      && (r == [] <==> !Listed(VariantOrEmpty(e.doc.a)) && !Listed(VariantOrEmpty(e.doc.b)))
      && (Listed(VariantOrEmpty(e.doc.a)) ==> r[0].variant == "A" && r[0].componentId == e.componentId)
  {
  }

  /** The history view: the letter check comes first, a lower-case letter is accepted, and the
      version count is the history's length plus the current version. */
  lemma VariantHistoryOutcome(users: seq<UserRecord>, userId: string, componentId: string, letter: string)
    ensures var r := VariantHistory(users, userId, componentId, letter);
      (r.Err? && r.error.status == 400) <==> Upper(letter) !in {"A", "B"}
    ensures var r := VariantHistory(users, userId, componentId, letter);
      (r.Err? && r.error.status == 404) <==>
        Upper(letter) in {"A", "B"} && !exists i :: 0 <= i < |users| && users[i].userId == Some(userId)
    ensures var r := VariantHistory(users, userId, componentId, letter);
      r.Ok? ==> r.value.totalVersions == |r.value.history| + 1 && r.value.variant in {"A", "B"}
  {
  }

  /** Lower-case letters name the same variants. */
  lemma LowerCaseLetters(users: seq<UserRecord>, userId: string, componentId: string)
    ensures VariantHistory(users, userId, componentId, "a") == VariantHistory(users, userId, componentId, "A")
    ensures VariantHistory(users, userId, componentId, "b") == VariantHistory(users, userId, componentId, "B")
    ensures VariantHistory(users, userId, componentId, "C").Err?
  {
    assert Upper("a") == "A" && Upper("A") == "A";
    assert Upper("b") == "B" && Upper("B") == "B";
    assert Upper("C") == "C";
  }
}
