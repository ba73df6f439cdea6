/**
 * The analytics endpoints (src/controllers/analyticsController.js): the
 * per-campaign report behind the campaign access check, the overview over
 * every campaign a user may see with the top five campaigns, and the
 * simulated-data generator that writes to the event collection.
 */
module Analytics {
  import opened Wrappers
  import opened Events
  import opened Access
  import Stats
  import Breakdown
  import TimeSeries
  import Generator
  import Campaigns
  import Paging

  type CampaignMap = map<CampaignId, Campaigns.Campaign>

  /** The key of the device breakdown: `metadata.deviceType`, null when unset. */
  function DeviceKey(e: Event): Option<DeviceType> {
    e.metadata.deviceType
  }

  /** The key of the location breakdown: `metadata.location.country`, null when unset. */
  function CountryKey(e: Event): Option<string> {
    if e.metadata.location.Some? then e.metadata.location.value.country else None
  }

  /** The key of the top-campaign ranking: the event's campaign. */
  function CampaignKey(e: Event): CampaignId {
    e.campaign
  }

  const LocationRows: nat := 10
  const TopCampaignRows: nat := 5

  // ---------------------------------------------------------------------
  // getCampaignAnalytics

  datatype CampaignReport = CampaignReport(
    summary: Stats.AggregateStats,
    timeSeries: seq<TimeSeries.SeriesRow>,
    deviceBreakdown: seq<Breakdown.Tally<Option<DeviceType>>>,
    locationBreakdown: seq<Breakdown.Tally<Option<string>>>)

  /** `getDeviceBreakdown`: one row per device type among the events, unset included. */
  function DeviceBreakdown(events: seq<Event>): (rows: seq<Breakdown.Tally<Option<DeviceType>>>)
    ensures Breakdown.IsGrouping(rows, events, DeviceKey)
  {
    Breakdown.GroupRows(events, DeviceKey);
    Breakdown.GroupBy(events, DeviceKey)
  }

  /** `getLocationBreakdown`: the ten countries with the most impressions. */
  function LocationBreakdown(events: seq<Event>): (rows: seq<Breakdown.Tally<Option<string>>>)
    ensures Breakdown.IsRanking(rows, Breakdown.GroupBy(events, CountryKey), LocationRows)
    ensures |rows| <= LocationRows
  {
    Breakdown.TopIsRanking(Breakdown.GroupBy(events, CountryKey), LocationRows);
    Breakdown.Top(Breakdown.GroupBy(events, CountryKey), LocationRows)
  }

  /**
   * `getCampaignAnalytics`: 404 for a missing campaign and 403 for an
   * outsider, before anything is aggregated; otherwise the summary, the
   * time series and both breakdowns of the campaign's events in the window.
   * The four parts are computed on the events whose campaign id equals the
   * requested one (the corrected reading; see `RawCampaignEvents`).
   */
  method CampaignAnalytics(campaigns: CampaignMap, log: seq<Event>, p: Principal, campaignId: CampaignId,
                           w: Window, groupBy: Option<string>, dateToString: (string, int) -> string)
    returns (r: Result<CampaignReport, Denial>)
    ensures var access := CampaignAccess(Campaigns.OwnerOf(campaigns, campaignId), p);
      && (r.Failure? <==> access.Some?)
      && (r.Failure? ==> r.error == access.value)
    ensures r.Success? ==>
      var matched := Matching(log, Only({campaignId}), w);
      && r.value.summary == Stats.Summarize(matched)
      && TimeSeries.IsSeries(r.value.timeSeries, matched, TimeSeries.Bucketer(dateToString, TimeSeries.ParseGroupBy(groupBy)))
      && Breakdown.IsGrouping(r.value.deviceBreakdown, matched, DeviceKey)
      && Breakdown.IsRanking(r.value.locationBreakdown, Breakdown.GroupBy(matched, CountryKey), LocationRows)
  {
    var access := CampaignAccess(Campaigns.OwnerOf(campaigns, campaignId), p);
    if access.Some? {
      return Failure(access.value);
    }
    var summary := Stats.AggregatedStats(log, campaignId, w.start, w.end);
    var series := TimeSeries.TimeSeriesData(log, campaignId, w, groupBy, dateToString);
    var matched := Matching(log, Only({campaignId}), w);
    r := Success(CampaignReport(summary, series, DeviceBreakdown(matched), LocationBreakdown(matched)));
  }

  /**
   * The events the time series and both breakdowns see as written: their
   * `$match` compares the stored ObjectId with the id string of the path,
   * which no aggregation stage casts.
   */
  function RawCampaignEvents(log: seq<Event>, campaignId: CampaignId, w: Window): seq<Event> {
    Paging.Filter(log, (e: Event) => ObjectIdValue(e.campaign) == StringValue(campaignId) && InWindow(w, e.timestamp))
  }

  /** As written, the time series and both breakdowns are always empty. */
  lemma RawCampaignEventsEmpty(log: seq<Event>, campaignId: CampaignId, w: Window,
                               rows: seq<TimeSeries.SeriesRow>, bucket: int -> string)
    ensures RawCampaignEvents(log, campaignId, w) == []
    ensures DeviceBreakdown(RawCampaignEvents(log, campaignId, w)) == []
    ensures LocationBreakdown(RawCampaignEvents(log, campaignId, w)) == []
    ensures TimeSeries.IsSeries(rows, RawCampaignEvents(log, campaignId, w), bucket) ==> rows == []
  {
    Paging.FilterNone(log, (e: Event) => ObjectIdValue(e.campaign) == StringValue(campaignId) && InWindow(w, e.timestamp));
    if TimeSeries.IsSeries(rows, [], bucket) {
      TimeSeries.NoEventsNoSeries(rows, bucket);
    }
  }

  /**
   * A campaign with a single impression: the summary (whose query casts the
   * id) counts it, while the device breakdown as written is empty and the
   * corrected one has a row for it.
   */
  lemma RawCampaignEventsExample(e: Event, w: Window)
    requires e.eventType == Impression && InWindow(w, e.timestamp)
    ensures Stats.Summarize(Matching([e], Only({e.campaign}), w)).impressions == 1
    ensures DeviceBreakdown(RawCampaignEvents([e], e.campaign, w)) == []
    ensures DeviceBreakdown(Matching([e], Only({e.campaign}), w)) != []
  {
    var rows := Matching([e], Only({e.campaign}), w);
    assert rows == [e];
    assert Events.Count(rows, Impression) == 1;
    RawCampaignEventsEmpty([e], e.campaign, w, [], x => "");
    var device := DeviceBreakdown(rows);
    assert exists i :: 0 <= i < |device| && device[i].key == DeviceKey(e);
  }

  // ---------------------------------------------------------------------
  // getAnalyticsOverview and getTopCampaigns

  /** The ids of the campaigns `p` owns (`Campaign.find({owner})`). */
  function OwnedIds(campaigns: CampaignMap, p: Principal): set<CampaignId> {
    set id | id in campaigns && campaigns[id].owner == p.userId
  }

  /** The events a user's overview and ranking see: all for an administrator, those of the owned campaigns otherwise. */
  function ScopeOf(campaigns: CampaignMap, p: Principal): (s: Scope)
    ensures IsAdmin(p) <==> s.All?
    ensures !IsAdmin(p) ==> forall id :: InScope(s, id) <==> id in campaigns && campaigns[id].owner == p.userId
  {
    if p.role != "admin" then Only(OwnedIds(campaigns, p)) else All
  }

  /** What `select('name status')` returns for a ranked campaign; None is the null of a deleted one. */
  datatype CampaignSummary = CampaignSummary(name: string, status: Campaigns.CampaignStatus)

  function SummaryOf(campaigns: CampaignMap, id: CampaignId): (s: Option<CampaignSummary>)
    ensures s.Some? <==> id in campaigns
    ensures s.Some? ==> s.value.name == campaigns[id].name && s.value.status == campaigns[id].status
  {
    if id in campaigns then Some(CampaignSummary(campaigns[id].name, campaigns[id].status)) else None
  }

  /** One ranked campaign: its counts and the attached campaign details. */
  datatype TopCampaign = TopCampaign(row: Breakdown.Tally<CampaignId>, campaign: Option<CampaignSummary>)

  function Rows(top: seq<TopCampaign>): (rows: seq<Breakdown.Tally<CampaignId>>)
    ensures |rows| == |top| && forall i :: 0 <= i < |top| ==> rows[i] == top[i].row
  {
    seq(|top|, i requires 0 <= i < |top| => top[i].row)
  }

  /**
   * `getTopCampaigns(user)`: the five campaigns with the most impressions
   * among the events the user may see (no time window), then each row's
   * `campaign` is set in place to its name and status, or null.
   */
  method TopCampaigns(campaigns: CampaignMap, log: seq<Event>, p: Principal) returns (top: seq<TopCampaign>)
    ensures |top| <= TopCampaignRows
    ensures Breakdown.IsRanking(Rows(top), Breakdown.GroupBy(Matching(log, ScopeOf(campaigns, p), Window(None, None)), CampaignKey), TopCampaignRows)
    ensures forall i :: 0 <= i < |top| ==> top[i].campaign == SummaryOf(campaigns, top[i].row.key)
    ensures forall i :: 0 <= i < |top| ==> InScope(ScopeOf(campaigns, p), top[i].row.key)
  {
    var matched := Matching(log, ScopeOf(campaigns, p), Window(None, None));
    var ranked := Breakdown.Top(Breakdown.GroupBy(matched, CampaignKey), TopCampaignRows);
    Breakdown.TopIsRanking(Breakdown.GroupBy(matched, CampaignKey), TopCampaignRows);
    Breakdown.RankingBounded(ranked, Breakdown.GroupBy(matched, CampaignKey), TopCampaignRows);
    RankedKeysInScope(matched, ScopeOf(campaigns, p), ranked);
    top := AttachCampaigns(campaigns, ranked);
  }

  /** The `populate('campaign', 'name status')` step: each row's `campaign` is set in place. */
  method AttachCampaigns(campaigns: CampaignMap, ranked: seq<Breakdown.Tally<CampaignId>>) returns (top: seq<TopCampaign>)
    ensures Rows(top) == ranked
    ensures forall i :: 0 <= i < |top| ==> top[i].campaign == SummaryOf(campaigns, top[i].row.key)
  {
    var items := new TopCampaign[|ranked|](i requires 0 <= i < |ranked| => TopCampaign(ranked[i], None));
    for i := 0 to items.Length
      invariant forall j :: 0 <= j < items.Length ==> items[j].row == ranked[j]
      invariant forall j :: 0 <= j < i ==> items[j].campaign == SummaryOf(campaigns, ranked[j].key)
    {
      items[i] := items[i].(campaign := SummaryOf(campaigns, ranked[i].key));
    }
    top := items[..];
  }

  /** Every campaign of a ranking of the matched events is in the scope that matched them. */
  lemma RankedKeysInScope(matched: seq<Event>, scope: Scope, ranked: seq<Breakdown.Tally<CampaignId>>)
    requires forall e :: e in matched ==> InScope(scope, e.campaign)
    requires forall r :: r in ranked ==> r in Breakdown.GroupBy(matched, CampaignKey)
    ensures forall i :: 0 <= i < |ranked| ==> InScope(scope, ranked[i].key)
  {
    forall i | 0 <= i < |ranked|
      ensures InScope(scope, ranked[i].key)
    {
      assert ranked[i] in ranked;
      Breakdown.GroupKeyOccurs(matched, CampaignKey, ranked[i]);
    }
  }

  datatype Overview = Overview(overview: Stats.AggregateStats, topCampaigns: seq<TopCampaign>)

  /**
   * `getAnalyticsOverview`: the summary of every event the user may see in
   * the window, formatted by the same loop and rate rule as the campaign
   * summary, and the top campaigns.
   */
  method AnalyticsOverview(campaigns: CampaignMap, log: seq<Event>, p: Principal, w: Window) returns (r: Overview)
    ensures r.overview == Stats.Summarize(Matching(log, ScopeOf(campaigns, p), w))
    ensures |r.topCampaigns| <= TopCampaignRows
    ensures Breakdown.IsRanking(Rows(r.topCampaigns), Breakdown.GroupBy(Matching(log, ScopeOf(campaigns, p), Window(None, None)), CampaignKey), TopCampaignRows)
    ensures forall i :: 0 <= i < |r.topCampaigns| ==> r.topCampaigns[i].campaign == SummaryOf(campaigns, r.topCampaigns[i].row.key)
    ensures forall i :: 0 <= i < |r.topCampaigns| ==> InScope(ScopeOf(campaigns, p), r.topCampaigns[i].row.key)
  {
    var matched := Matching(log, ScopeOf(campaigns, p), w);
    var overview := Stats.FormatStats(Stats.TypeGroups(matched), matched);
    var top := TopCampaigns(campaigns, log, p);
    r := Overview(overview, top);
  }

  /** A user who owns no campaign sees no events: the overview is all zeros and there is nothing to rank. */
  lemma NoCampaignsNoAnalytics(campaigns: CampaignMap, log: seq<Event>, p: Principal, w: Window)
    requires !IsAdmin(p) && OwnedIds(campaigns, p) == {}
    ensures Stats.Summarize(Matching(log, ScopeOf(campaigns, p), w)) == Stats.Summarize([])
    ensures Breakdown.GroupBy(Matching(log, ScopeOf(campaigns, p), Window(None, None)), CampaignKey) == []
  {
    EmptyScopeSeesNothing(log, w);
    EmptyScopeSeesNothing(log, Window(None, None));
  }

  // ---------------------------------------------------------------------
  // generateSimulatedData

  const DefaultDays: int := 7

  datatype Generated = Generated(eventsCreated: nat, days: int)

  /**
   * `generateSimulatedData`: after the campaign access check, the generated
   * events of `days` days (7 by default) are inserted in one `insertMany`;
   * when access is refused nothing is inserted.
   */
  method SimulateData(campaigns: CampaignMap, store: EventCollection, p: Principal, campaignId: CampaignId,
                      days: Option<int>, clock: nat -> int, rand: nat -> Generator.Draw)
    returns (r: Result<Generated, Denial>)
    modifies store
    ensures var access := CampaignAccess(Campaigns.OwnerOf(campaigns, campaignId), p);
      && (access.Some? ==> r == Failure(access.value) && store.log == old(store.log))
      && (access.None? ==>
            var n := days.GetOr(DefaultDays);
            var events := Generator.Simulated(campaignId, if n > 0 then n else 0, clock, rand).events;
            && store.log == old(store.log) + events
            && r == Success(Generated(|events|, n)))
  {
    var access := CampaignAccess(Campaigns.OwnerOf(campaigns, campaignId), p);
    if access.Some? {
      return Failure(access.value);
    }
    var n := days.GetOr(DefaultDays);
    var created := InsertSimulated(store, campaignId, n, clock, rand);
    r := Success(Generated(created, n));
  }

  /** The generator loops followed by the single `insertMany` of everything they pushed. */
  method InsertSimulated(store: EventCollection, campaignId: CampaignId, days: int, clock: nat -> int, rand: nat -> Generator.Draw)
    returns (created: nat)
    modifies store
    ensures var events := Generator.Simulated(campaignId, if days > 0 then days else 0, clock, rand).events;
      store.log == old(store.log) + events && created == |events|
  {
    var events := Generator.Generate(campaignId, days, clock, rand);
    store.InsertMany(events);
    created := |events|;
  }
}
