/**
 * The analytics event record (src/models/AnalyticsEvent.js) and the folds
 * over an event log that every aggregation uses: counting by type, summing
 * `value`, and the `$match` filter by campaign scope and time window.
 * Timestamps are integer milliseconds since the epoch.
 */
module Events {
  import opened Wrappers

  type CampaignId = string
  type CreativeId = string

  datatype EventType = Impression | Click | Conversion | View
  datatype DeviceType = Desktop | Mobile | Tablet

  datatype Location = Location(country: Option<string>, city: Option<string>)

  datatype Metadata = Metadata(
    deviceType: Option<DeviceType>,
    browser: Option<string>,
    os: Option<string>,
    location: Option<Location>,
    referrer: Option<string>,
    ipAddress: Option<string>)

  datatype Event = Event(
    campaign: CampaignId,
    creative: Option<CreativeId>,
    eventType: EventType,
    timestamp: int,
    metadata: Metadata,
    value: real)

  /** The name stored in the `eventType` field. */
  function TypeName(t: EventType): string {
    match t
    case Impression => "impression"
    case Click => "click"
    case Conversion => "conversion"
    case View => "view"
  }

  /** The schema's `enum` check on `eventType`. */
  function ParseEventType(s: string): (r: Option<EventType>)
    ensures r.Some? ==> TypeName(r.value) == s
  {
    if s == "impression" then Some(Impression)
    else if s == "click" then Some(Click)
    else if s == "conversion" then Some(Conversion)
    else if s == "view" then Some(View)
    else None
  }

  /** Exactly the four names are accepted, each as its own type. */
  lemma ParseEventTypeRoundTrip(t: EventType)
    ensures ParseEventType(TypeName(t)) == Some(t)
  {
  }

  function DeviceName(d: DeviceType): string {
    match d
    case Desktop => "desktop"
    case Mobile => "mobile"
    case Tablet => "tablet"
  }

  /** The schema's `enum` check on `metadata.deviceType`. */
  function ParseDeviceType(s: string): (r: Option<DeviceType>)
    ensures r.Some? ==> DeviceName(r.value) == s
    ensures r.None? ==> s != "desktop" && s != "mobile" && s != "tablet"
  {
    if s == "desktop" then Some(Desktop)
    else if s == "mobile" then Some(Mobile)
    else if s == "tablet" then Some(Tablet)
    else None
  }

  /** An event as submitted, before the schema's defaults and checks. */
  datatype EventInput = EventInput(
    campaign: Option<CampaignId>,
    creative: Option<CreativeId>,
    eventType: Option<string>,
    timestamp: Option<int>,
    deviceType: Option<string>,
    metadata: Metadata,
    value: Option<real>)

  datatype SchemaError = MissingCampaign | MissingEventType | BadEventType | BadDeviceType

  /**
   * Schema validation with defaults: campaign and eventType are required,
   * eventType and deviceType must be one of their enums, timestamp defaults
   * to the current time and value to 0.
   */
  function NewEvent(input: EventInput, now: int): (r: Result<Event, SchemaError>)
    ensures input.campaign.None? ==> r == Failure(MissingCampaign)
    ensures r.Success? <==>
      && input.campaign.Some?
      && input.eventType.Some? && ParseEventType(input.eventType.value).Some?
      && (input.deviceType.None? || ParseDeviceType(input.deviceType.value).Some?)
    ensures r.Success? ==>
      && r.value.campaign == input.campaign.value
      && TypeName(r.value.eventType) == input.eventType.value
      && r.value.timestamp == input.timestamp.GetOr(now)
      && r.value.value == input.value.GetOr(0.0)
      && (input.deviceType.Some? <==> r.value.metadata.deviceType.Some?)
  {
    if input.campaign.None? then Failure(MissingCampaign)
    else if input.eventType.None? then Failure(MissingEventType)
    else
      match ParseEventType(input.eventType.value)
      case None => Failure(BadEventType)
      case Some(t) =>
        var device :=
          if input.deviceType.None? then Some(None)
          else match ParseDeviceType(input.deviceType.value)
               case None => None
               case Some(d) => Some(Some(d));
        if device.None? then Failure(BadDeviceType)
        else Success(Event(
          input.campaign.value, input.creative, t, input.timestamp.GetOr(now),
          input.metadata.(deviceType := device.value), input.value.GetOr(0.0)))
  }

  // ---------------------------------------------------------------------
  // Counting folds

  /** Number of events of type `t`. */
  function Count(events: seq<Event>, t: EventType): nat {
    if events == [] then 0
    else (if events[0].eventType == t then 1 else 0) + Count(events[1..], t)
  }

  /** Sum of `value` over the events of type `t` (`$sum: '$value'` in a type group). */
  function ValueSum(events: seq<Event>, t: EventType): real {
    if events == [] then 0.0
    else (if events[0].eventType == t then events[0].value else 0.0) + ValueSum(events[1..], t)
  }

  lemma {:induction false} CountAppend(a: seq<Event>, b: seq<Event>, t: EventType)
    ensures Count(a + b, t) == Count(a, t) + Count(b, t)
  {
    if a == [] {
      assert a + b == b;
    } else {
      assert (a + b)[1..] == a[1..] + b;
      CountAppend(a[1..], b, t);
    }
  }

  lemma {:induction false} ValueSumAppend(a: seq<Event>, b: seq<Event>, t: EventType)
    ensures ValueSum(a + b, t) == ValueSum(a, t) + ValueSum(b, t)
  {
    if a == [] {
      assert a + b == b;
    } else {
      assert (a + b)[1..] == a[1..] + b;
      ValueSumAppend(a[1..], b, t);
    }
  }

  /** `Count` is positive exactly when an event of that type is present. */
  lemma {:induction false} CountPositive(events: seq<Event>, t: EventType)
    ensures Count(events, t) > 0 <==> exists e :: e in events && e.eventType == t
  {
    if events != [] {
      CountPositive(events[1..], t);
      assert forall e :: e in events <==> e == events[0] || e in events[1..];
    }
  }

  /** A type absent from the log contributes no value. */
  lemma {:induction false} ValueSumAbsent(events: seq<Event>, t: EventType)
    requires Count(events, t) == 0
    ensures ValueSum(events, t) == 0.0
  {
    if events != [] {
      ValueSumAbsent(events[1..], t);
    }
  }

  /** The per-type counts partition the log: every event has exactly one type. */
  lemma {:induction false} CountsPartition(events: seq<Event>)
    ensures Count(events, Impression) + Count(events, Click) + Count(events, Conversion) + Count(events, View) == |events|
  {
    if events != [] {
      CountsPartition(events[1..]);
    }
  }

  // ---------------------------------------------------------------------
  // The $match stage

  /**
   * An id as an aggregation `$match` stage compares it. Pipelines are not
   * cast by the schema, so a stored ObjectId never equals a string, even
   * one spelling the same hex digits; `find` queries are cast and compare
   * the ids themselves.
   */
  datatype IdValue = ObjectIdValue(hex: string) | StringValue(text: string)

  /** Campaigns visible to a query: every campaign (an administrator) or a finite set. */
  datatype Scope = All | Only(ids: set<CampaignId>)

  predicate InScope(scope: Scope, id: CampaignId) {
    scope.All? || id in scope.ids
  }

  /** The optional `startDate`/`endDate` query parameters, already parsed. */
  datatype Window = Window(start: Option<int>, end: Option<int>)

  /** The timestamp filter is applied only when both bounds are given, and is inclusive. */
  predicate InWindow(w: Window, ts: int) {
    w.start.Some? && w.end.Some? ==> w.start.value <= ts <= w.end.value
  }

  predicate Matches(e: Event, scope: Scope, w: Window) {
    InScope(scope, e.campaign) && InWindow(w, e.timestamp)
  }

  /** The events of the log that pass the `$match` stage, in log order. */
  function Matching(events: seq<Event>, scope: Scope, w: Window): (r: seq<Event>)
    ensures |r| <= |events|
    ensures forall e :: e in r <==> e in events && Matches(e, scope, w)
  {
    if events == [] then []
    else
      var rest := Matching(events[1..], scope, w);
      assert forall e :: e in events <==> e == events[0] || e in events[1..];
      if Matches(events[0], scope, w) then [events[0]] + rest else rest
  }

  /** A single event passes exactly when it matches. */
  lemma MatchingSingleton(e: Event, scope: Scope, w: Window)
    ensures Matching([e], scope, w) == if Matches(e, scope, w) then [e] else []
  {
    assert [e][1..] == [];
  }

  /**
   * `$match` distributes over concatenation. With `MatchingSingleton` this
   * fixes the result completely: the matching events, each once, in log
   * order, so every count taken of it counts each matching event once.
   */
  lemma {:induction false} MatchingAppend(a: seq<Event>, b: seq<Event>, scope: Scope, w: Window)
    ensures Matching(a + b, scope, w) == Matching(a, scope, w) + Matching(b, scope, w)
  {
    if a == [] {
      assert a + b == b;
    } else {
      assert (a + b)[1..] == a[1..] + b;
      MatchingAppend(a[1..], b, scope, w);
    }
  }

  /** An empty scope sees no events at all, whatever the window. */
  lemma EmptyScopeSeesNothing(events: seq<Event>, w: Window)
    ensures Matching(events, Only({}), w) == []
  {
  }

  /** With only one bound (or none) the window lets every timestamp through. */
  lemma HalfOpenWindowIgnored(events: seq<Event>, scope: Scope, w: Window)
    requires w.start.None? || w.end.None?
    ensures forall e :: e in Matching(events, scope, w) <==> e in events && InScope(scope, e.campaign)
  {
  }

  // ---------------------------------------------------------------------
  // The collection

  /** The analytics event collection: the log every aggregation reads, in insertion order. */
  class EventCollection {
    var log: seq<Event>

    constructor ()
      ensures log == []
    {
      log := [];
    }

    /** `AnalyticsEvent.create(body)`: a valid event is stored with its defaults, an invalid one changes nothing. */
    method Create(input: EventInput, now: int) returns (r: Result<Event, SchemaError>)
      modifies this
      ensures r == NewEvent(input, now)
      ensures r.Success? ==> log == old(log) + [r.value]
      ensures r.Failure? ==> log == old(log)
    {
      r := NewEvent(input, now);
      if r.Success? {
        log := log + [r.value];
      }
    }

    /** `AnalyticsEvent.insertMany(events)`: appends the events in order. */
    method InsertMany(events: seq<Event>)
      modifies this
      ensures log == old(log) + events
    {
      log := log + events;
    }
  }
}
