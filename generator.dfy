/**
 * The simulated-data generator of `generateSimulatedData`
 * (src/controllers/analyticsController.js): for each of `days` days it draws
 * an impression count, then a click count from it, then a conversion count
 * from the clicks, and pushes one event per count with a random time within
 * the day and random device, country and city.
 *
 * `Math.random()` is modelled as a stream `rand` of draws: the i-th call
 * returns `rand(i) / 2^53`, which is exactly the set of values V8's
 * generator can return. The clock `new Date()`, read once per day, is the
 * stream `clock`.
 */
module Generator {
  import opened Wrappers
  import opened Events

  /** 2^53: `Math.random()` returns a multiple of 2^-53 in [0, 1). */
  const Scale: nat := 0x20_0000_0000_0000

  type Draw = r: nat | r < Scale

  const DayMs: nat := 86400000

  const Devices: seq<DeviceType> := [Desktop, Mobile, Tablet]
  const Countries: seq<string> := ["USA", "UK", "Canada", "Germany", "France"]
  const Cities: seq<string> := ["New York", "London", "Toronto", "Berlin", "Paris"]

  /** `Math.floor(Math.random() * n)`: a uniform index below `n`. */
  function Pick(r: Draw, n: nat): (k: nat)
    ensures n > 0 ==> k < n
  {
    if n > 0 then
      assert r * n < Scale * n by {
        assert (Scale - r) * n > 0;
      }
      r * n / 0x20_0000_0000_0000  // Scale
    else 0
  }

  /** `Math.floor(impressions * (0.02 + Math.random() * 0.03))`; the divisor is `100 * Scale`. */
  function Clicks(impressions: nat, r: Draw): nat {
    impressions * (2 * Scale + 3 * r) / 0xC80_0000_0000_0000
  }

  /** `Math.floor(clicks * (0.05 + Math.random() * 0.05))`; the divisor is `100 * Scale`. */
  function Conversions(clicks: nat, r: Draw): nat {
    clicks * (5 * Scale + 5 * r) / 0xC80_0000_0000_0000
  }

  /** Draws per event: time, device, country and city, plus the value of a conversion. */
  function Width(t: EventType): nat {
    if t == Conversion then 5 else 4
  }

  /** The event whose draws start at position `p`, for a day starting at `start`. */
  function SimEvent(campaign: CampaignId, t: EventType, start: int, rand: nat -> Draw, p: nat): Event {
    var q := if t == Conversion then p + 2 else p + 1;
    var location := Location(Some(Countries[Pick(rand(q + 1), 5)]), Some(Cities[Pick(rand(q + 2), 5)]));
    Event(campaign, None, t, start + Pick(rand(p), DayMs),
      Metadata(Some(Devices[Pick(rand(q), 3)]), None, None, Some(location), None, None),
      if t == Conversion then (Pick(rand(p + 1), 100) + 20) as real else 0.0)
  }

  /** `n` events of type `t` whose draws start at position `p`. */
  function Block(campaign: CampaignId, t: EventType, n: nat, start: int, rand: nat -> Draw, p: nat): seq<Event> {
    seq(n, k requires 0 <= k < n => SimEvent(campaign, t, start, rand, p + k * Width(t)))
  }

  /** One more event at the end of a block: the one whose draws follow the block's. */
  lemma BlockSnoc(campaign: CampaignId, t: EventType, n: nat, start: int, rand: nat -> Draw, p: nat)
    ensures Block(campaign, t, n + 1, start, rand, p)
      == Block(campaign, t, n, start, rand, p) + [SimEvent(campaign, t, start, rand, p + n * Width(t))]
  {
  }

  /** The events generated so far and the position of the next draw. */
  datatype Run = Run(events: seq<Event>, next: nat)

  /** The counts drawn for one day and the positions where the click and conversion draws sit. */
  datatype Plan = Plan(impressions: nat, clicks: nat, conversions: nat, clickDraw: nat, conversionDraw: nat)

  /** The day's counts when its first draw is at position `p`. */
  function PlanAt(rand: nat -> Draw, p: nat): Plan {
    var impressions := Pick(rand(p), 1000) + 500;
    var p1 := p + 1 + impressions * 4;
    var clicks := Clicks(impressions, rand(p1));
    var p2 := p1 + 1 + clicks * 4;
    Plan(impressions, clicks, Conversions(clicks, rand(p2)), p1, p2)
  }

  function DayStart(clock: nat -> int, day: nat): int {
    clock(day) - day * DayMs
  }

  /**
   * The impressions, then the clicks, then the conversions of a day that
   * follows `plan`: exactly the planned number of events of each type.
   */
  function DayEvents(campaign: CampaignId, start: int, plan: Plan, rand: nat -> Draw, p: nat): (events: seq<Event>)
    ensures forall u :: Count(events, u) == Planned(plan, u)
  {
    var a := Block(campaign, Impression, plan.impressions, start, rand, p + 1);
    var b := Block(campaign, Click, plan.clicks, start, rand, plan.clickDraw + 1);
    var c := Block(campaign, Conversion, plan.conversions, start, rand, plan.conversionDraw + 1);
    forall u ensures Count(a + b + c, u) == Planned(plan, u) {
      BlockCount(campaign, Impression, plan.impressions, start, rand, p + 1, u);
      BlockCount(campaign, Click, plan.clicks, start, rand, plan.clickDraw + 1, u);
      BlockCount(campaign, Conversion, plan.conversions, start, rand, plan.conversionDraw + 1, u);
      PlannedBlocks(a, b, c, plan, u);
    }
    a + b + c
  }

  /** Day `day` (0 is today) with draws from position `p`. */
  function Day(campaign: CampaignId, day: nat, clock: nat -> int, rand: nat -> Draw, p: nat): Run {
    var plan := PlanAt(rand, p);
    Run(DayEvents(campaign, DayStart(clock, day), plan, rand, p), plan.conversionDraw + 1 + plan.conversions * 5)
  }

  /** The first `days` days, today first. */
  function Simulated(campaign: CampaignId, days: nat, clock: nat -> int, rand: nat -> Draw): Run
    decreases days, 1
  {
    if days == 0 then Run([], 0)
    else
      var today := RunDay(campaign, days - 1, clock, rand);
      Run(Simulated(campaign, days - 1, clock, rand).events + today.events, today.next)
  }

  /** Day `day` of the run: it starts drawing where the days before it stopped. */
  function RunDay(campaign: CampaignId, day: nat, clock: nat -> int, rand: nat -> Draw): Run
    decreases day + 1, 0
  {
    Day(campaign, day, clock, rand, Simulated(campaign, day, clock, rand).next)
  }

  /** One inner loop of the generator: pushes `n` events of type `t`. */
  method Push(events: seq<Event>, campaign: CampaignId, t: EventType, n: nat, start: int, rand: nat -> Draw, p: nat)
    returns (events': seq<Event>, p': nat)
    ensures events' == events + Block(campaign, t, n, start, rand, p)
    ensures p' == p + n * Width(t)
  {
    events', p' := events, p;
    for i := 0 to n
      invariant events' == events + Block(campaign, t, i, start, rand, p)
      invariant p' == p + i * Width(t)
    {
      PushStep(events, campaign, t, i, start, rand, p, p');
      events' := events' + [SimEvent(campaign, t, start, rand, p')];
      p' := p' + Width(t);
    }
  }

  /** One iteration of `Push`: the next event is the block's next one, and its draws end where the next begin. */
  lemma PushStep(events: seq<Event>, campaign: CampaignId, t: EventType, i: nat, start: int, rand: nat -> Draw, p: nat, q: nat)
    requires q == p + i * Width(t)
    ensures events + Block(campaign, t, i + 1, start, rand, p)
      == events + Block(campaign, t, i, start, rand, p) + [SimEvent(campaign, t, start, rand, q)]
    ensures q + Width(t) == p + (i + 1) * Width(t)
  {
    BlockSnoc(campaign, t, i, start, rand, p);
  }

  /**
   * The body of the day loop: the impression, click and conversion loops of
   * day `day`. The three counts are read from `PlanAt`, which draws each of
   * them at the stream position where the source draws it: the click count
   * right after the impression loop, the conversion count right after the
   * click loop.
   */
  method SimulateDay(events: seq<Event>, campaign: CampaignId, day: nat, clock: nat -> int, rand: nat -> Draw, p: nat)
    returns (events': seq<Event>, p': nat)
    ensures events' == events + Day(campaign, day, clock, rand, p).events
    ensures p' == Day(campaign, day, clock, rand, p).next
  {
    DayBlocks(campaign, day, clock, rand, p);
    var start := DayStart(clock, day);
    var plan := PlanAt(rand, p);
    events', p' := Push(events, campaign, Impression, plan.impressions, start, rand, p + 1);
    events', p' := Push(events', campaign, Click, plan.clicks, start, rand, p' + 1);
    events', p' := Push(events', campaign, Conversion, plan.conversions, start, rand, p' + 1);
    AppendThree(events,
      Block(campaign, Impression, plan.impressions, start, rand, p + 1),
      Block(campaign, Click, plan.clicks, start, rand, plan.clickDraw + 1),
      Block(campaign, Conversion, plan.conversions, start, rand, plan.conversionDraw + 1));
  }

  /** A day is its three blocks, and its draws end after the last conversion's. */
  lemma DayBlocks(campaign: CampaignId, day: nat, clock: nat -> int, rand: nat -> Draw, p: nat)
    ensures var plan, start := PlanAt(rand, p), DayStart(clock, day);
      && Day(campaign, day, clock, rand, p).events
         == Block(campaign, Impression, plan.impressions, start, rand, p + 1)
          + Block(campaign, Click, plan.clicks, start, rand, plan.clickDraw + 1)
          + Block(campaign, Conversion, plan.conversions, start, rand, plan.conversionDraw + 1)
      && Day(campaign, day, clock, rand, p).next == plan.conversionDraw + 1 + plan.conversions * Width(Conversion)
  {
  }

  lemma AppendThree(s: seq<Event>, a: seq<Event>, b: seq<Event>, c: seq<Event>)
    ensures s + a + b + c == s + (a + b + c)
  {
  }

  /** The generator loop; `days` less than 1 generates nothing. */
  method Generate(campaign: CampaignId, days: int, clock: nat -> int, rand: nat -> Draw) returns (events: seq<Event>)
    ensures events == Simulated(campaign, if days > 0 then days else 0, clock, rand).events
  {
    events := [];
    var p: nat := 0;
    var day: nat := 0;
    while day < days
      invariant days > 0 ==> day <= days
      invariant days <= 0 ==> day == 0
      invariant Run(events, p) == Simulated(campaign, day, clock, rand)
    {
      ghost var today := RunDay(campaign, day, clock, rand);
      assert Simulated(campaign, day + 1, clock, rand) == Run(events + today.events, today.next);
      events, p := SimulateDay(events, campaign, day, clock, rand, p);
      day := day + 1;
    }
    assert day == if days > 0 then days else 0;
  }

  // ---------------------------------------------------------------------
  // Properties of the generated data

  /**
   * A generated event of the day starting at `start`: it belongs to the
   * campaign, falls within the 24 hours after `start`, carries a device,
   * country and city from the fixed lists, and a value of 20 to 119 if it
   * is a conversion and 0 otherwise.
   */
  ghost predicate Plausible(e: Event, campaign: CampaignId, start: int) {
    && e.campaign == campaign
    && e.creative.None?
    && e.eventType != View
    && start <= e.timestamp < start + DayMs
    && (if e.eventType == Conversion then 20.0 <= e.value <= 119.0 else e.value == 0.0)
    && e.metadata.deviceType.Some?
    && e.metadata.location.Some?
    && e.metadata.location.value.country.Some? && e.metadata.location.value.country.value in Countries
    && e.metadata.location.value.city.Some? && e.metadata.location.value.city.value in Cities
  }

  lemma SimEventPlausible(campaign: CampaignId, t: EventType, start: int, rand: nat -> Draw, p: nat)
    requires t != View
    ensures SimEvent(campaign, t, start, rand, p).eventType == t
    ensures Plausible(SimEvent(campaign, t, start, rand, p), campaign, start)
  {
    var q := if t == Conversion then p + 2 else p + 1;
    assert Countries[Pick(rand(q + 1), 5)] in Countries;
    assert Cities[Pick(rand(q + 2), 5)] in Cities;
  }

  lemma BlockPlausible(campaign: CampaignId, t: EventType, n: nat, start: int, rand: nat -> Draw, p: nat)
    requires t != View
    ensures forall e :: e in Block(campaign, t, n, start, rand, p) ==> e.eventType == t && Plausible(e, campaign, start)
  {
    var b := Block(campaign, t, n, start, rand, p);
    forall k | 0 <= k < n ensures b[k].eventType == t && Plausible(b[k], campaign, start) {
      SimEventPlausible(campaign, t, start, rand, p + k * Width(t));
    }
  }

  /** A sequence of events all of type `t` counts fully for `t` and not at all for another type. */
  lemma {:induction false} CountUniform(events: seq<Event>, t: EventType, u: EventType)
    requires forall e :: e in events ==> e.eventType == t
    ensures Count(events, u) == if u == t then |events| else 0
  {
    if events != [] {
      assert events[0] in events;
      assert forall e :: e in events[1..] ==> e in events;
      CountUniform(events[1..], t, u);
    }
  }

  /** Every event of a day is plausible for that day. */
  lemma DayEventsPlausible(campaign: CampaignId, start: int, plan: Plan, rand: nat -> Draw, p: nat)
    ensures forall e :: e in DayEvents(campaign, start, plan, rand, p) ==> Plausible(e, campaign, start)
  {
    BlockPlausible(campaign, Impression, plan.impressions, start, rand, p + 1);
    BlockPlausible(campaign, Click, plan.clicks, start, rand, plan.clickDraw + 1);
    BlockPlausible(campaign, Conversion, plan.conversions, start, rand, plan.conversionDraw + 1);
  }

  lemma DayPlausible(campaign: CampaignId, day: nat, clock: nat -> int, rand: nat -> Draw, p: nat)
    ensures forall e :: e in Day(campaign, day, clock, rand, p).events ==> Plausible(e, campaign, DayStart(clock, day))
  {
    DayEventsPlausible(campaign, DayStart(clock, day), PlanAt(rand, p), rand, p);
  }

  lemma MulLe(a: nat, b: nat, c: nat)
    requires a <= b
    ensures a * c <= b * c
  {
  }

  lemma MulLt(a: nat, b: nat, c: nat)
    requires a < b && c > 0
    ensures a * c < b * c
  {
  }

  lemma DivBounds(m: nat, d: nat)
    requires d > 0
    ensures (m / d) * d <= m < (m / d) * d + d
  {
  }

  /** `m * (k * Scale + j * r)` splits into its two terms. */
  lemma Spread(m: nat, k: nat, j: nat, r: Draw)
    ensures m * (k * Scale + j * r) == k * (m * Scale) + j * (r * m)
  {
  }

  lemma CancelLt(a: nat, b: nat, k: nat)
    requires a * k < b * k
    ensures a < b
  {
    if a >= b {
      MulLe(b, a, k);
    }
  }

  /** A product between `lo` and `hi` times `Scale`, divided by `100 * Scale`, is between lo% and hi%. */
  lemma FloorPercent(m: nat, lo: nat, hi: nat)
    requires lo * Scale <= m < hi * Scale
    ensures lo < 100 * (m / 0xC80_0000_0000_0000 + 1)
    ensures 100 * (m / 0xC80_0000_0000_0000) < hi
  {
    var c := m / 0xC80_0000_0000_0000;
    DivBounds(m, 0xC80_0000_0000_0000);
    assert c * 0xC80_0000_0000_0000 == (100 * c) * Scale;
    assert c * 0xC80_0000_0000_0000 + 0xC80_0000_0000_0000 == (100 * (c + 1)) * Scale;
    CancelLt(100 * c, hi, Scale);
    CancelLt(lo, 100 * (c + 1), Scale);
  }

  /** The click count is 2% to 5% of the impressions, rounded down. */
  lemma ClicksBounds(impressions: nat, r: Draw)
    requires impressions > 0
    ensures 2 * impressions < 100 * (Clicks(impressions, r) + 1)
    ensures 100 * Clicks(impressions, r) < 5 * impressions
  {
    var m := impressions * (2 * Scale + 3 * r);
    Spread(impressions, 2, 3, r);
    MulLt(r, Scale, impressions);
    assert (2 * impressions) * Scale == 2 * (impressions * Scale) && (5 * impressions) * Scale == 5 * (impressions * Scale);
    FloorPercent(m, 2 * impressions, 5 * impressions);
  }

  /** The conversion count is 5% to 10% of the clicks, rounded down. */
  lemma ConversionsBounds(clicks: nat, r: Draw)
    ensures 5 * clicks < 100 * (Conversions(clicks, r) + 1)
    ensures 10 * Conversions(clicks, r) <= clicks
  {
    var m := clicks * (5 * Scale + 5 * r);
    Spread(clicks, 5, 5, r);
    MulLe(r, Scale, clicks);
    assert (5 * clicks) * Scale == 5 * (clicks * Scale) && (10 * clicks + 1) * Scale == 10 * (clicks * Scale) + Scale;
    FloorPercent(m, 5 * clicks, 10 * clicks + 1);
  }

  /** A block of `n` events of type `t` counts `n` for `t` and nothing for the other types. */
  lemma BlockCount(campaign: CampaignId, t: EventType, n: nat, start: int, rand: nat -> Draw, p: nat, u: EventType)
    ensures Count(Block(campaign, t, n, start, rand, p), u) == if u == t then n else 0
  {
    var b := Block(campaign, t, n, start, rand, p);
    assert forall e :: e in b ==> e.eventType == t;
    CountUniform(b, t, u);
  }

  /** The count a plan fixes for each type. */
  function Planned(plan: Plan, u: EventType): nat {
    match u
    case Impression => plan.impressions
    case Click => plan.clicks
    case Conversion => plan.conversions
    case View => 0
  }

  /** Three blocks holding the planned impressions, clicks and conversions hold the plan's counts. */
  lemma PlannedBlocks(a: seq<Event>, b: seq<Event>, c: seq<Event>, plan: Plan, u: EventType)
    requires Count(a, u) == if u == Impression then plan.impressions else 0
    requires Count(b, u) == if u == Click then plan.clicks else 0
    requires Count(c, u) == if u == Conversion then plan.conversions else 0
    ensures Count(a + b + c, u) == Planned(plan, u)
  {
    CountAppend3(a, b, c, u);
  }

  /** The counts a plan draws: clicks at 2-5% of the impressions, conversions at 5-10% of the clicks. */
  lemma PlanRates(rand: nat -> Draw, p: nat)
    ensures var plan := PlanAt(rand, p);
      && 500 <= plan.impressions < 1500
      && 2 * plan.impressions < 100 * (plan.clicks + 1) && 100 * plan.clicks < 5 * plan.impressions
      && 5 * plan.clicks < 100 * (plan.conversions + 1) && 10 * plan.conversions <= plan.clicks
  {
    var plan := PlanAt(rand, p);
    ClicksBounds(plan.impressions, rand(plan.clickDraw));
    ConversionsBounds(plan.clicks, rand(plan.conversionDraw));
  }

  /**
   * The funnel of one day: clicks at 2-5% of impressions, conversions at
   * 5-10% of clicks.
   */
  lemma DayFunnel(campaign: CampaignId, day: nat, clock: nat -> int, rand: nat -> Draw, p: nat)
    ensures var events := Day(campaign, day, clock, rand, p).events;
      var impressions, clicks, conversions := Count(events, Impression), Count(events, Click), Count(events, Conversion);
      && 2 * impressions < 100 * (clicks + 1) && 100 * clicks < 5 * impressions
      && 5 * clicks < 100 * (conversions + 1) && 10 * conversions <= clicks
  {
    PlanRates(rand, p);
  }

  lemma CountAppend3(a: seq<Event>, b: seq<Event>, c: seq<Event>, u: EventType)
    ensures Count(a + b + c, u) == Count(a, u) + Count(b, u) + Count(c, u)
  {
    CountAppend(a + b, c, u);
    CountAppend(a, b, u);
  }

  /** `e` is a plausible event of one of the first `days` days. */
  ghost predicate OfSomeDay(e: Event, campaign: CampaignId, days: nat, clock: nat -> int) {
    exists d :: 0 <= d < days && Plausible(e, campaign, DayStart(clock, d))
  }

  /** Every generated event belongs to one of the `days` days (today and the ones before) and is plausible for it. */
  lemma {:induction false} SimulatedPlausible(campaign: CampaignId, days: nat, clock: nat -> int, rand: nat -> Draw)
    ensures forall e :: e in Simulated(campaign, days, clock, rand).events ==> OfSomeDay(e, campaign, days, clock)
  {
    if days > 0 {
      var before := Simulated(campaign, days - 1, clock, rand);
      var today := RunDay(campaign, days - 1, clock, rand);
      SimulatedPlausible(campaign, days - 1, clock, rand);
      DayPlausible(campaign, days - 1, clock, rand, before.next);
      forall e | e in before.events + today.events ensures OfSomeDay(e, campaign, days, clock) {
        if e in today.events {
          assert Plausible(e, campaign, DayStart(clock, days - 1));
        } else {
          assert OfSomeDay(e, campaign, days - 1, clock);
        }
      }
    }
  }

  /** Each day contributes 500 to 1499 impressions and no views. */
  lemma DayVolume(campaign: CampaignId, day: nat, clock: nat -> int, rand: nat -> Draw, p: nat)
    ensures 500 <= Count(Day(campaign, day, clock, rand, p).events, Impression) < 1500
    ensures Count(Day(campaign, day, clock, rand, p).events, View) == 0
  {
    PlanRates(rand, p);
  }

  /** Number of events of type `u` in a run of `days` days. */
  function SimulatedCount(campaign: CampaignId, days: nat, clock: nat -> int, rand: nat -> Draw, u: EventType): nat {
    Count(Simulated(campaign, days, clock, rand).events, u)
  }

  /** Day `days - 1` adds 500 to 1499 impressions and no views to the run before it. */
  lemma DayAdds(campaign: CampaignId, days: nat, clock: nat -> int, rand: nat -> Draw) returns (added: nat)
    requires days > 0
    ensures SimulatedCount(campaign, days, clock, rand, Impression) == SimulatedCount(campaign, days - 1, clock, rand, Impression) + added
    ensures 500 <= added < 1500
    ensures SimulatedCount(campaign, days, clock, rand, View) == SimulatedCount(campaign, days - 1, clock, rand, View)
  {
    var before := Simulated(campaign, days - 1, clock, rand);
    var today := RunDay(campaign, days - 1, clock, rand);
    CountAppend(before.events, today.events, Impression);
    CountAppend(before.events, today.events, View);
    DayVolume(campaign, days - 1, clock, rand, before.next);
    added := Count(today.events, Impression);
  }

  /** A run of `days` days has 500 to 1499 impressions per day and no views. */
  lemma {:induction false} SimulatedVolume(campaign: CampaignId, days: nat, clock: nat -> int, rand: nat -> Draw)
    ensures 500 * days <= SimulatedCount(campaign, days, clock, rand, Impression) <= 1499 * days
    ensures SimulatedCount(campaign, days, clock, rand, View) == 0
  {
    if days > 0 {
      var added := DayAdds(campaign, days, clock, rand);
      SimulatedVolume(campaign, days - 1, clock, rand);
    }
  }

  /** Today's events may lie up to 24 hours after the moment of generation. */
  lemma TodayReachesAhead(campaign: CampaignId, clock: nat -> int, rand: nat -> Draw)
    ensures forall e :: e in Simulated(campaign, 1, clock, rand).events ==> clock(0) <= e.timestamp < clock(0) + DayMs
  {
    assert Simulated(campaign, 1, clock, rand).events == RunDay(campaign, 0, clock, rand).events;
    DayPlausible(campaign, 0, clock, rand, 0);
  }
}
