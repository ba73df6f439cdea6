/**
 * Summary statistics: the `$group` by event type followed by the
 * formatting loop of `getAggregatedStats` (src/models/AnalyticsEvent.js),
 * which the analytics overview (src/controllers/analyticsController.js)
 * repeats line for line; both use FormatStats here.
 */
module Stats {
  import opened Wrappers
  import opened Events
  import opened Rates

  datatype AggregateStats = AggregateStats(
    impressions: nat,
    clicks: nat,
    conversions: nat,
    views: nat,
    ctr: Percent,
    conversionRate: Percent,
    totalValue: real)

  /** What the summary of a set of events is: per-type counts, the two rates,
      and the value summed over conversions only. */
  function Summarize(events: seq<Event>): AggregateStats {
    var impressions := Count(events, Impression);
    var clicks := Count(events, Click);
    var conversions := Count(events, Conversion);
    AggregateStats(
      impressions, clicks, conversions, Count(events, View),
      Rate(clicks, impressions), Rate(conversions, clicks),
      ValueSum(events, Conversion))
  }

  /** One output row of `$group: {_id: '$eventType', count, totalValue}`. */
  datatype TypeGroup = TypeGroup(eventType: EventType, count: nat, totalValue: real)

  /** `groups` is a possible output of the `$group` stage over `events`, in any order. */
  ghost predicate IsTypeGrouping(groups: seq<TypeGroup>, events: seq<Event>) {
    && (forall i, j :: 0 <= i < j < |groups| ==> groups[i].eventType != groups[j].eventType)
    && (forall i :: 0 <= i < |groups| ==>
          && groups[i].count == Count(events, groups[i].eventType) > 0
          && groups[i].totalValue == ValueSum(events, groups[i].eventType))
    && (forall t :: Count(events, t) > 0 ==> exists i :: 0 <= i < |groups| && groups[i].eventType == t)
  }

  /** The groups in `gs` are groups of `events` for types among `ts`, each with its count and value sum. */
  ghost predicate GroupsCounted(events: seq<Event>, ts: seq<EventType>, gs: seq<TypeGroup>) {
    forall i :: 0 <= i < |gs| ==>
      && gs[i].eventType in ts
      && gs[i].count == Count(events, gs[i].eventType) > 0
      && gs[i].totalValue == ValueSum(events, gs[i].eventType)
  }

  ghost predicate GroupTypesDistinct(gs: seq<TypeGroup>) {
    forall i, j :: 0 <= i < j < |gs| ==> gs[i].eventType != gs[j].eventType
  }

  /** The group of type `t`, when `t` is present, followed by `rest`. */
  function GroupCons(events: seq<Event>, t: EventType, rest: seq<TypeGroup>): seq<TypeGroup> {
    if Count(events, t) > 0 then [TypeGroup(t, Count(events, t), ValueSum(events, t))] + rest else rest
  }

  lemma GroupConsCounted(events: seq<Event>, ts: seq<EventType>, rest: seq<TypeGroup>)
    requires ts != [] && GroupsCounted(events, ts[1..], rest)
    ensures GroupsCounted(events, ts, GroupCons(events, ts[0], rest))
  {
    assert forall t :: t in ts[1..] ==> t in ts;
  }

  lemma GroupConsDistinct(events: seq<Event>, ts: seq<EventType>, rest: seq<TypeGroup>)
    requires ts != [] && forall i, j :: 0 <= i < j < |ts| ==> ts[i] != ts[j]
    requires GroupsCounted(events, ts[1..], rest) && GroupTypesDistinct(rest)
    ensures GroupTypesDistinct(GroupCons(events, ts[0], rest))
  {
    forall j | 0 <= j < |ts[1..]| ensures ts[1..][j] != ts[0] {
      assert ts[1..][j] == ts[j + 1];
    }
  }

  /** Every type of `ts` present in `events` has its group in `gs`. */
  ghost predicate GroupsComplete(events: seq<Event>, ts: seq<EventType>, gs: seq<TypeGroup>) {
    forall t :: t in ts && Count(events, t) > 0 ==> TypeGroup(t, Count(events, t), ValueSum(events, t)) in gs
  }

  lemma GroupConsComplete(events: seq<Event>, ts: seq<EventType>, rest: seq<TypeGroup>)
    requires ts != [] && GroupsComplete(events, ts[1..], rest)
    ensures GroupsComplete(events, ts, GroupCons(events, ts[0], rest))
  {
    assert forall t :: t in ts <==> t == ts[0] || t in ts[1..];
  }

  /** The groups of the types `ts` present in `events`, in the order of `ts`. */
  function GroupsFor(events: seq<Event>, ts: seq<EventType>): (gs: seq<TypeGroup>)
    requires forall i, j :: 0 <= i < j < |ts| ==> ts[i] != ts[j]
    ensures GroupsCounted(events, ts, gs) && GroupTypesDistinct(gs) && GroupsComplete(events, ts, gs)
  {
    if ts == [] then []
    else
      var rest := GroupsFor(events, ts[1..]);
      GroupConsCounted(events, ts, rest);
      GroupConsDistinct(events, ts, rest);
      GroupConsComplete(events, ts, rest);
      GroupCons(events, ts[0], rest)
  }

  /** One concrete output of the `$group` stage: the types in declaration order. */
  function TypeGroups(events: seq<Event>): (groups: seq<TypeGroup>)
    ensures IsTypeGrouping(groups, events)
  {
    var ts := [Impression, Click, Conversion, View];
    forall t: EventType ensures t in ts {
      if t == Impression {
        assert ts[0] == t;
      } else if t == Click {
        assert ts[1] == t;
      } else if t == Conversion {
        assert ts[2] == t;
      } else {
        assert ts[3] == t;
      }
    }
    var groups := GroupsFor(events, ts);
    forall t | Count(events, t) > 0 ensures exists i :: 0 <= i < |groups| && groups[i].eventType == t {
      var i :| 0 <= i < |groups| && groups[i] == TypeGroup(t, Count(events, t), ValueSum(events, t));
    }
    groups
  }

  /** The stat field written by `stats[type + 's'] = count`. */
  function CountField(s: AggregateStats, t: EventType): nat {
    match t
    case Impression => s.impressions
    case Click => s.clicks
    case Conversion => s.conversions
    case View => s.views
  }

  function SetCountField(s: AggregateStats, t: EventType, n: nat): (r: AggregateStats)
    ensures CountField(r, t) == n
    ensures forall u :: u != t ==> CountField(r, u) == CountField(s, u)
    ensures r.ctr == s.ctr && r.conversionRate == s.conversionRate && r.totalValue == s.totalValue
  {
    match t
    case Impression => s.(impressions := n)
    case Click => s.(clicks := n)
    case Conversion => s.(conversions := n)
    case View => s.(views := n)
  }

  /** One pass of the formatting loop: the group's count goes into its
      field, and a conversion group's value sum into totalValue. */
  function CopyGroup(stats: AggregateStats, g: TypeGroup): (r: AggregateStats)
    ensures CountField(r, g.eventType) == g.count
    ensures forall u :: u != g.eventType ==> CountField(r, u) == CountField(stats, u)
    ensures r.totalValue == if g.eventType == Conversion then g.totalValue else stats.totalValue
    ensures r.ctr == stats.ctr && r.conversionRate == stats.conversionRate
  {
    var r := SetCountField(stats, g.eventType, g.count);
    if g.eventType == Conversion then r.(totalValue := g.totalValue) else r
  }

  /** The loop's state: the fields of the types in `seen` hold their totals over
      `events`, every other field is still 0, and neither rate is set yet. */
  ghost predicate Filled(stats: AggregateStats, events: seq<Event>, seen: set<EventType>) {
    && (forall t :: CountField(stats, t) == (if t in seen then Count(events, t) else 0))
    && stats.totalValue == (if Conversion in seen then ValueSum(events, Conversion) else 0.0)
    && stats.ctr == Zero && stats.conversionRate == Zero
  }

  lemma CopyGroupFills(stats: AggregateStats, events: seq<Event>, seen: set<EventType>, g: TypeGroup)
    requires Filled(stats, events, seen)
    requires g.count == Count(events, g.eventType) && g.totalValue == ValueSum(events, g.eventType)
    ensures Filled(CopyGroup(stats, g), events, seen + {g.eventType})
  {
  }

  /** Once every present type is seen, the counts and totalValue are the summary's. */
  lemma FilledComplete(stats: AggregateStats, events: seq<Event>, seen: set<EventType>)
    requires Filled(stats, events, seen)
    requires forall t :: Count(events, t) > 0 ==> t in seen
    ensures stats == Summarize(events).(ctr := Zero, conversionRate := Zero)
  {
    if Count(events, Conversion) == 0 {
      ValueSumAbsent(events, Conversion);
    }
    assert stats.impressions == CountField(stats, Impression);
    assert stats.clicks == CountField(stats, Click);
    assert stats.conversions == CountField(stats, Conversion);
    assert stats.views == CountField(stats, View);
  }

  /**
   * The formatting loop: start from all zeros, copy each group's count into
   * its field and the conversion group's value sum into totalValue, then set
   * each rate only when its denominator is positive. Whatever order the
   * groups come in, the result is the summary of the grouped events.
   */
  method FormatStats(groups: seq<TypeGroup>, ghost events: seq<Event>) returns (stats: AggregateStats)
    requires IsTypeGrouping(groups, events)
    ensures stats == Summarize(events)
  {
    stats := AggregateStats(0, 0, 0, 0, Zero, Zero, 0.0);
    ghost var seen: set<EventType> := {};
    for i := 0 to |groups|
      invariant seen == set j | 0 <= j < i :: groups[j].eventType
      invariant Filled(stats, events, seen)
    {
      CopyGroupFills(stats, events, seen, groups[i]);
      stats := CopyGroup(stats, groups[i]);
      seen := seen + {groups[i].eventType};
    }
    forall t | Count(events, t) > 0 ensures t in seen {
      var j :| 0 <= j < |groups| && groups[j].eventType == t;
    }
    FilledComplete(stats, events, seen);
    if stats.impressions > 0 {
      stats := stats.(ctr := Rate(stats.clicks, stats.impressions));
    }
    if stats.clicks > 0 {
      stats := stats.(conversionRate := Rate(stats.conversions, stats.clicks));
    }
  }

  /** `getAggregatedStats(campaignId, startDate, endDate)`: the summary of one campaign's events. */
  method AggregatedStats(log: seq<Event>, campaignId: CampaignId, startDate: Option<int>, endDate: Option<int>)
    returns (stats: AggregateStats)
    ensures stats == Summarize(Matching(log, Only({campaignId}), Window(startDate, endDate)))
    ensures stats.impressions + stats.clicks + stats.conversions + stats.views
      == |Matching(log, Only({campaignId}), Window(startDate, endDate))|
  {
    var matched := Matching(log, Only({campaignId}), Window(startDate, endDate));
    stats := FormatStats(TypeGroups(matched), matched);
    CountsPartition(matched);
  }

  // ---------------------------------------------------------------------
  // Properties of the summary

  /** Each rate is 0 exactly when its denominator is 0. */
  lemma RatesZeroIffNoDenominator(events: seq<Event>)
    ensures Summarize(events).ctr == Zero <==> Count(events, Impression) == 0
    ensures Summarize(events).conversionRate == Zero <==> Count(events, Click) == 0
  {
  }

  /** The value of non-conversion events never reaches totalValue. */
  lemma {:induction false} TotalValueIgnoresOtherTypes(a: seq<Event>, b: seq<Event>)
    requires |a| == |b|
    requires forall i :: 0 <= i < |a| ==> a[i].eventType == b[i].eventType
    requires forall i :: 0 <= i < |a| && a[i].eventType == Conversion ==> a[i].value == b[i].value
    ensures Summarize(a) == Summarize(b)
  {
    if a != [] {
      TotalValueIgnoresOtherTypes(a[1..], b[1..]);
    }
  }

  function Repeat(e: Event, n: nat): seq<Event> {
    if n == 0 then [] else [e] + Repeat(e, n - 1)
  }

  lemma {:induction false} RepeatCount(e: Event, n: nat, t: EventType)
    ensures Count(Repeat(e, n), t) == if e.eventType == t then n else 0
    ensures ValueSum(Repeat(e, n), t) == if e.eventType == t then n as real * e.value else 0.0
  {
    if n > 0 {
      RepeatCount(e, n - 1, t);
    }
  }

  lemma CountValueAppend3(x: seq<Event>, y: seq<Event>, z: seq<Event>, t: EventType)
    ensures Count(x + y + z, t) == Count(x, t) + Count(y, t) + Count(z, t)
    ensures ValueSum(x + y + z, t) == ValueSum(x, t) + ValueSum(y, t) + ValueSum(z, t)
  {
    CountAppend(x + y, z, t);
    CountAppend(x, y, t);
    ValueSumAppend(x + y, z, t);
    ValueSumAppend(x, y, t);
  }

  lemma ScenarioType(imp: Event, clk: Event, conv: Event, t: EventType)
    ensures Count(Repeat(imp, 100) + Repeat(clk, 5) + [conv], t)
      == (if imp.eventType == t then 100 else 0) + (if clk.eventType == t then 5 else 0) + (if conv.eventType == t then 1 else 0)
    ensures ValueSum(Repeat(imp, 100) + Repeat(clk, 5) + [conv], t)
      == (if imp.eventType == t then 100.0 * imp.value else 0.0) + (if clk.eventType == t then 5.0 * clk.value else 0.0)
         + (if conv.eventType == t then conv.value else 0.0)
  {
    assert [conv][1..] == [];
    CountValueAppend3(Repeat(imp, 100), Repeat(clk, 5), [conv], t);
    RepeatCount(imp, 100, t);
    RepeatCount(clk, 5, t);
  }

  /** 100 impressions, 5 clicks and one conversion worth 50 give
      ctr 5.00, conversionRate 20.00 and totalValue 50. */
  lemma SummaryScenario(a: CampaignId, m: Metadata, ts: int)
    ensures
      var imp := Event(a, None, Impression, ts, m, 0.0);
      var clk := Event(a, None, Click, ts, m, 0.0);
      var conv := Event(a, None, Conversion, ts, m, 50.0);
      Summarize(Repeat(imp, 100) + Repeat(clk, 5) + [conv])
        == AggregateStats(100, 5, 1, 0, Fixed(500), Fixed(2000), 50.0)
  {
    var imp := Event(a, None, Impression, ts, m, 0.0);
    var clk := Event(a, None, Click, ts, m, 0.0);
    var conv := Event(a, None, Conversion, ts, m, 50.0);
    var events := Repeat(imp, 100) + Repeat(clk, 5) + [conv];
    assert [conv][1..] == [];
    ScenarioType(imp, clk, conv, Impression);
    ScenarioType(imp, clk, conv, Click);
    ScenarioType(imp, clk, conv, Conversion);
    ScenarioType(imp, clk, conv, View);
    RateExact(5, 100, 500);
    RateExact(1, 5, 2000);
  }
}
