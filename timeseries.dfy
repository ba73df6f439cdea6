/**
 * `getTimeSeriesData` (src/controllers/analyticsController.js): choose a
 * `$dateToString` format from `groupBy`, group the matched events by
 * (bucket key, event type), sort by bucket key, then pivot the groups into
 * one row per bucket in a dictionary built in place.
 *
 * `$dateToString` itself (calendar, time zone, ISO week) is a parameter:
 * `dateToString(format, timestamp)` gives the bucket key of a timestamp.
 */
module TimeSeries {
  import opened Wrappers
  import opened Text
  import opened Events

  datatype Granularity = Hour | Day | Week | Month

  /** The `groupBy` query parameter, `'day'` when absent; anything unrecognised is treated as `'day'`. */
  function ParseGroupBy(groupBy: Option<string>): Granularity {
    var s := groupBy.GetOr("day");
    if s == "hour" then Hour
    else if s == "week" then Week
    else if s == "month" then Month
    else Day
  }

  function DateFormat(g: Granularity): string {
    match g
    case Hour => "%Y-%m-%d-%H"
    case Day => "%Y-%m-%d"
    case Week => "%Y-W%V"
    case Month => "%Y-%m"
  }

  /** An unknown `groupBy` value buckets by calendar day, exactly as `'day'` does. */
  lemma UnknownGroupByIsDay(s: string)
    requires s != "hour" && s != "day" && s != "week" && s != "month"
    ensures DateFormat(ParseGroupBy(Some(s))) == DateFormat(ParseGroupBy(Some("day"))) == "%Y-%m-%d"
  {
  }

  function Bucketer(dateToString: (string, int) -> string, g: Granularity): int -> string {
    ts => dateToString(DateFormat(g), ts)
  }

  /** Events of type `t` in bucket `d`. */
  function CountAt(events: seq<Event>, bucket: int -> string, d: string, t: EventType): nat {
    if events == [] then 0
    else (if bucket(events[0].timestamp) == d && events[0].eventType == t then 1 else 0) + CountAt(events[1..], bucket, d, t)
  }

  lemma {:induction false} CountAtPositive(events: seq<Event>, bucket: int -> string, d: string, t: EventType)
    ensures CountAt(events, bucket, d, t) > 0 <==> exists e :: e in events && bucket(e.timestamp) == d && e.eventType == t
  {
    if events != [] {
      CountAtPositive(events[1..], bucket, d, t);
      assert forall e :: e in events <==> e == events[0] || e in events[1..];
    }
  }

  /** Some event falls in bucket `d`. */
  ghost predicate Occupied(events: seq<Event>, bucket: int -> string, d: string) {
    exists e :: e in events && bucket(e.timestamp) == d
  }

  /** One output row of `$group: {_id: {date, eventType}, count: {$sum: 1}}`. */
  datatype BucketGroup = BucketGroup(date: string, eventType: EventType, count: nat)

  /** Every group carries the count of its (bucket, type) pair, which is positive. */
  ghost predicate Counted(gs: seq<BucketGroup>, events: seq<Event>, bucket: int -> string) {
    forall i :: 0 <= i < |gs| ==> gs[i].count == CountAt(events, bucket, gs[i].date, gs[i].eventType) > 0
  }

  /** No (bucket, type) pair appears twice. */
  ghost predicate PairsDistinct(gs: seq<BucketGroup>) {
    forall i, j :: 0 <= i < j < |gs| ==> gs[i].date != gs[j].date || gs[i].eventType != gs[j].eventType
  }

  ghost predicate DatesAscending(gs: seq<BucketGroup>) {
    forall i, j :: 0 <= i < j < |gs| ==> LexLe(gs[i].date, gs[j].date)
  }

  /**
   * `groups` is a possible output of the `$group` and `$sort: {'_id.date': 1}`
   * stages: one row per (bucket, type) present, with its count, ordered by
   * bucket key; the order among rows of one bucket is not fixed.
   */
  ghost predicate IsBucketGrouping(groups: seq<BucketGroup>, events: seq<Event>, bucket: int -> string) {
    && Counted(groups, events, bucket)
    && PairsDistinct(groups)
    && (forall e :: e in events ==> exists i :: 0 <= i < |groups| && groups[i].date == bucket(e.timestamp) && groups[i].eventType == e.eventType)
    && DatesAscending(groups)
  }

  // ---------------------------------------------------------------------
  // One concrete output of `$group` + `$sort`

  ghost predicate StrictlySorted(ks: seq<string>) {
    forall i, j :: 0 <= i < j < |ks| ==> LexLess(ks[i], ks[j])
  }

  function InsertKey(k: string, ks: seq<string>): (r: seq<string>)
    requires StrictlySorted(ks)
    ensures StrictlySorted(r)
    ensures forall x :: x in r <==> x in ks || x == k
  {
    if ks == [] then [k]
    else if k == ks[0] then ks
    else if LexLess(k, ks[0]) then
      assert forall j :: 0 < j < |ks| ==> LexLess(k, ks[j]) by {
        forall j | 0 < j < |ks| ensures LexLess(k, ks[j]) {
          LexLessTransitive(k, ks[0], ks[j]);
        }
      }
      [k] + ks
    else
      LexLessTotal(k, ks[0]);
      var rest := InsertKey(k, ks[1..]);
      assert forall x :: x in ks <==> x == ks[0] || x in ks[1..];
      assert forall j :: 0 <= j < |rest| ==> LexLess(ks[0], rest[j]) by {
        forall j | 0 <= j < |rest| ensures LexLess(ks[0], rest[j]) {
          assert rest[j] in rest;
          if rest[j] != k {
            var m :| 0 <= m < |ks[1..]| && ks[1..][m] == rest[j];
            assert ks[m + 1] == rest[j];
          }
        }
      }
      [ks[0]] + rest
  }

  /** The distinct bucket keys of the events, ascending. */
  function BucketKeys(events: seq<Event>, bucket: int -> string): (ks: seq<string>)
    ensures StrictlySorted(ks)
    ensures forall d :: d in ks <==> Occupied(events, bucket, d)
  {
    if events == [] then []
    else
      assert forall e :: e in events <==> e == events[0] || e in events[1..];
      InsertKey(bucket(events[0].timestamp), BucketKeys(events[1..], bucket))
  }

  /** Every group of `gs` is a group of bucket `d` for one of the types `ts`, with its positive count. */
  ghost predicate CellsCounted(events: seq<Event>, bucket: int -> string, d: string, ts: seq<EventType>, gs: seq<BucketGroup>) {
    forall i :: 0 <= i < |gs| ==> gs[i].eventType in ts && gs[i].date == d && gs[i].count == CountAt(events, bucket, d, gs[i].eventType) > 0
  }

  ghost predicate TypesDistinct(gs: seq<BucketGroup>) {
    forall i, j :: 0 <= i < j < |gs| ==> gs[i].eventType != gs[j].eventType
  }

  /** Every type of `ts` present in bucket `d` has its group in `gs`. */
  ghost predicate CellsComplete(events: seq<Event>, bucket: int -> string, d: string, ts: seq<EventType>, gs: seq<BucketGroup>) {
    forall t :: t in ts && CountAt(events, bucket, d, t) > 0 ==> BucketGroup(d, t, CountAt(events, bucket, d, t)) in gs
  }

  /** The group of type `t`, when present in bucket `d`, followed by `rest`. */
  function CellsCons(events: seq<Event>, bucket: int -> string, d: string, t: EventType, rest: seq<BucketGroup>): seq<BucketGroup> {
    var n := CountAt(events, bucket, d, t);
    if n > 0 then [BucketGroup(d, t, n)] + rest else rest
  }

  lemma CellsConsCounted(events: seq<Event>, bucket: int -> string, d: string, ts: seq<EventType>, rest: seq<BucketGroup>)
    requires ts != [] && CellsCounted(events, bucket, d, ts[1..], rest)
    ensures CellsCounted(events, bucket, d, ts, CellsCons(events, bucket, d, ts[0], rest))
  {
    assert forall t :: t in ts[1..] ==> t in ts;
  }

  lemma CellsConsDistinct(events: seq<Event>, bucket: int -> string, d: string, ts: seq<EventType>, rest: seq<BucketGroup>)
    requires ts != [] && forall i, j :: 0 <= i < j < |ts| ==> ts[i] != ts[j]
    requires forall i :: 0 <= i < |rest| ==> rest[i].eventType in ts[1..]
    requires TypesDistinct(rest)
    ensures TypesDistinct(CellsCons(events, bucket, d, ts[0], rest))
  {
    forall i | 0 <= i < |rest| ensures rest[i].eventType != ts[0] {
      var j :| 0 <= j < |ts[1..]| && ts[1..][j] == rest[i].eventType;
      assert ts[j + 1] == rest[i].eventType;
    }
    var gs := CellsCons(events, bucket, d, ts[0], rest);
    if gs != rest {
      forall i, j | 0 <= i < j < |gs| ensures gs[i].eventType != gs[j].eventType {
        assert gs[j] == rest[j - 1];
        if i > 0 {
          assert gs[i] == rest[i - 1];
        }
      }
    }
  }

  lemma CellsConsComplete(events: seq<Event>, bucket: int -> string, d: string, ts: seq<EventType>, rest: seq<BucketGroup>)
    requires ts != [] && CellsComplete(events, bucket, d, ts[1..], rest)
    ensures CellsComplete(events, bucket, d, ts, CellsCons(events, bucket, d, ts[0], rest))
  {
    assert forall t :: t in ts <==> t == ts[0] || t in ts[1..];
  }

  /** The groups of bucket `d` for the types `ts`, in that order, skipping absent types. */
  function Cells(events: seq<Event>, bucket: int -> string, d: string, ts: seq<EventType>): (gs: seq<BucketGroup>)
    requires forall i, j :: 0 <= i < j < |ts| ==> ts[i] != ts[j]
    ensures CellsCounted(events, bucket, d, ts, gs) && TypesDistinct(gs) && CellsComplete(events, bucket, d, ts, gs)
  {
    if ts == [] then []
    else
      var rest := Cells(events, bucket, d, ts[1..]);
      CellsConsCounted(events, bucket, d, ts, rest);
      CellsConsDistinct(events, bucket, d, ts, rest);
      CellsConsComplete(events, bucket, d, ts, rest);
      CellsCons(events, bucket, d, ts[0], rest)
  }

  /** The groups of one bucket, in the order impression, click, conversion, view. */
  function GroupsAt(events: seq<Event>, bucket: int -> string, d: string): (gs: seq<BucketGroup>)
    ensures forall i :: 0 <= i < |gs| ==> gs[i].date == d && gs[i].count == CountAt(events, bucket, d, gs[i].eventType) > 0
    ensures forall i, j :: 0 <= i < j < |gs| ==> gs[i].eventType != gs[j].eventType
    ensures forall t :: CountAt(events, bucket, d, t) > 0 ==> BucketGroup(d, t, CountAt(events, bucket, d, t)) in gs
  {
    var ts := [Impression, Click, Conversion, View];
    forall t: EventType ensures t in ts {
      if t == Impression {
        assert ts[0] == t;
      } else if t == Click {
        assert ts[1] == t;
      } else if t == Conversion {
        assert ts[2] == t;
      } else {
        assert ts[3] == t;
      }
    }
    Cells(events, bucket, d, ts)
  }

  function Expand(events: seq<Event>, bucket: int -> string, ks: seq<string>): seq<BucketGroup> {
    if ks == [] then [] else GroupsAt(events, bucket, ks[0]) + Expand(events, bucket, ks[1..])
  }

  lemma {:induction false} ExpandDates(events: seq<Event>, bucket: int -> string, ks: seq<string>)
    ensures forall i :: 0 <= i < |Expand(events, bucket, ks)| ==> Expand(events, bucket, ks)[i].date in ks
    ensures Counted(Expand(events, bucket, ks), events, bucket)
  {
    if ks != [] {
      ExpandDates(events, bucket, ks[1..]);
      var head, rest := GroupsAt(events, bucket, ks[0]), Expand(events, bucket, ks[1..]);
      var gs := head + rest;
      assert gs == Expand(events, bucket, ks);
      forall i | 0 <= i < |gs|
        ensures gs[i].date in ks && gs[i].count == CountAt(events, bucket, gs[i].date, gs[i].eventType) > 0
      {
        if i < |head| {
          assert gs[i] == head[i];
        } else {
          assert gs[i] == rest[i - |head|];
          assert rest[i - |head|].date in ks[1..];
        }
      }
    }
  }

  /** The groups of the later keys all lie in buckets after the first key. */
  lemma ExpandLater(events: seq<Event>, bucket: int -> string, ks: seq<string>)
    requires StrictlySorted(ks) && ks != []
    ensures forall i :: 0 <= i < |Expand(events, bucket, ks[1..])| ==> LexLess(ks[0], Expand(events, bucket, ks[1..])[i].date)
  {
    var rest := Expand(events, bucket, ks[1..]);
    ExpandDates(events, bucket, ks[1..]);
    forall i | 0 <= i < |rest| ensures LexLess(ks[0], rest[i].date) {
      var j :| 0 <= j < |ks[1..]| && ks[1..][j] == rest[i].date;
      assert ks[j + 1] == rest[i].date;
    }
  }

  lemma {:induction false} ExpandDistinct(events: seq<Event>, bucket: int -> string, ks: seq<string>)
    requires StrictlySorted(ks)
    ensures PairsDistinct(Expand(events, bucket, ks))
  {
    if ks != [] {
      ExpandDistinct(events, bucket, ks[1..]);
      ExpandLater(events, bucket, ks);
      var head, rest := GroupsAt(events, bucket, ks[0]), Expand(events, bucket, ks[1..]);
      var gs := head + rest;
      LexLessIrreflexive(ks[0]);
      forall i, j | 0 <= i < j < |gs| ensures gs[i].date != gs[j].date || gs[i].eventType != gs[j].eventType {
        if j < |head| {
        } else if i < |head| {
          assert gs[j] == rest[j - |head|];
        } else {
          assert gs[i] == rest[i - |head|] && gs[j] == rest[j - |head|];
        }
      }
    }
  }

  lemma {:induction false} ExpandAscending(events: seq<Event>, bucket: int -> string, ks: seq<string>)
    requires StrictlySorted(ks)
    ensures DatesAscending(Expand(events, bucket, ks))
  {
    if ks != [] {
      ExpandAscending(events, bucket, ks[1..]);
      ExpandLater(events, bucket, ks);
      var head, rest := GroupsAt(events, bucket, ks[0]), Expand(events, bucket, ks[1..]);
      var gs := head + rest;
      forall i, j | 0 <= i < j < |gs| ensures LexLe(gs[i].date, gs[j].date) {
        if j < |head| {
        } else if i < |head| {
          assert gs[j] == rest[j - |head|];
        } else {
          assert gs[i] == rest[i - |head|] && gs[j] == rest[j - |head|];
        }
      }
    }
  }

  lemma {:induction false} ExpandComplete(events: seq<Event>, bucket: int -> string, ks: seq<string>, d: string, t: EventType)
    requires d in ks && CountAt(events, bucket, d, t) > 0
    ensures BucketGroup(d, t, CountAt(events, bucket, d, t)) in Expand(events, bucket, ks)
  {
    var head, rest := GroupsAt(events, bucket, ks[0]), Expand(events, bucket, ks[1..]);
    var g := BucketGroup(d, t, CountAt(events, bucket, d, t));
    if d == ks[0] {
      assert g in head;
    } else {
      assert d in ks[1..];
      ExpandComplete(events, bucket, ks[1..], d, t);
    }
    assert g in head + rest;
  }

  /** The `$group` and `$sort` stages: buckets ascending, within a bucket the types in declaration order. */
  function BucketGroups(events: seq<Event>, bucket: int -> string): (groups: seq<BucketGroup>)
    ensures IsBucketGrouping(groups, events, bucket)
  {
    var ks := BucketKeys(events, bucket);
    ExpandDates(events, bucket, ks);
    ExpandDistinct(events, bucket, ks);
    ExpandAscending(events, bucket, ks);
    var groups := Expand(events, bucket, ks);
    assert forall e :: e in events ==> exists i :: 0 <= i < |groups| && groups[i].date == bucket(e.timestamp) && groups[i].eventType == e.eventType by {
      forall e | e in events
        ensures exists i :: 0 <= i < |groups| && groups[i].date == bucket(e.timestamp) && groups[i].eventType == e.eventType
      {
        var d, t := bucket(e.timestamp), e.eventType;
        CountAtPositive(events, bucket, d, t);
        ExpandComplete(events, bucket, ks, d, t);
        var i :| 0 <= i < |groups| && groups[i] == BucketGroup(d, t, CountAt(events, bucket, d, t));
      }
    }
    groups
  }

  // ---------------------------------------------------------------------
  // The pivot into rows

  /** A time-series row. `views` is a field the pivot adds only when the bucket has view events. */
  datatype SeriesRow = SeriesRow(date: string, impressions: nat, clicks: nat, conversions: nat, views: Option<nat>)

  /** `formatted[date][eventType + 's'] = count`. */
  function SetField(r: SeriesRow, t: EventType, n: nat): SeriesRow {
    match t
    case Impression => r.(impressions := n)
    case Click => r.(clicks := n)
    case Conversion => r.(conversions := n)
    case View => r.(views := Some(n))
  }

  function Get(r: SeriesRow, t: EventType): nat {
    match t
    case Impression => r.impressions
    case Click => r.clicks
    case Conversion => r.conversions
    case View => r.views.GetOr(0)
  }

  /** The row a bucket should have: its counts per type, zero-filled, and views only if present. */
  function RowFor(events: seq<Event>, bucket: int -> string, d: string): SeriesRow {
    var views := CountAt(events, bucket, d, View);
    SeriesRow(d, CountAt(events, bucket, d, Impression), CountAt(events, bucket, d, Click),
      CountAt(events, bucket, d, Conversion), if views > 0 then Some(views) else None)
  }

  /** The row for `d` after the pivot has processed the groups `gs`. */
  function PartialRow(gs: seq<BucketGroup>, d: string): SeriesRow {
    if gs == [] then SeriesRow(d, 0, 0, 0, None)
    else
      var n := |gs| - 1;
      var r := PartialRow(gs[..n], d);
      if gs[n].date == d then SetField(r, gs[n].eventType, gs[n].count) else r
  }

  lemma {:induction false} PartialRowAt(gs: seq<BucketGroup>, d: string, t: EventType)
    requires forall i, j :: 0 <= i < j < |gs| ==> gs[i].date != gs[j].date || gs[i].eventType != gs[j].eventType
    ensures PartialRow(gs, d).date == d
    ensures forall j :: 0 <= j < |gs| && gs[j].date == d && gs[j].eventType == t ==> Get(PartialRow(gs, d), t) == gs[j].count
    ensures t == View ==> (PartialRow(gs, d).views.Some? <==> exists j :: 0 <= j < |gs| && gs[j].date == d && gs[j].eventType == View)
    ensures (forall j :: 0 <= j < |gs| ==> gs[j].date != d || gs[j].eventType != t) ==> Get(PartialRow(gs, d), t) == 0
  {
    if gs != [] {
      var n := |gs| - 1;
      PartialRowAt(gs[..n], d, t);
      assert forall j :: 0 <= j < n ==> gs[..n][j] == gs[j];
    }
  }

  /** After every group is processed, the row's field for type `t` is that bucket's count of `t`. */
  lemma PartialRowField(groups: seq<BucketGroup>, events: seq<Event>, bucket: int -> string, d: string, t: EventType)
    requires IsBucketGrouping(groups, events, bucket)
    ensures PartialRow(groups, d).date == d
    ensures Get(PartialRow(groups, d), t) == CountAt(events, bucket, d, t)
    ensures t == View ==> (PartialRow(groups, d).views.Some? <==> CountAt(events, bucket, d, View) > 0)
  {
    PartialRowAt(groups, d, t);
    CountAtPositive(events, bucket, d, t);
    if CountAt(events, bucket, d, t) > 0 {
      var e :| e in events && bucket(e.timestamp) == d && e.eventType == t;
      var i :| 0 <= i < |groups| && groups[i].date == bucket(e.timestamp) && groups[i].eventType == e.eventType;
    }
  }

  /** Once every group is processed, a bucket's row is exactly RowFor. */
  lemma PartialRowComplete(groups: seq<BucketGroup>, events: seq<Event>, bucket: int -> string, d: string)
    requires IsBucketGrouping(groups, events, bucket)
    ensures PartialRow(groups, d) == RowFor(events, bucket, d)
  {
    PartialRowField(groups, events, bucket, d, Impression);
    PartialRowField(groups, events, bucket, d, Click);
    PartialRowField(groups, events, bucket, d, Conversion);
    PartialRowField(groups, events, bucket, d, View);
  }

  /** One more pivot step touches only the row of the group's own bucket. */
  lemma PartialRowStep(groups: seq<BucketGroup>, i: nat, d: string)
    requires i < |groups|
    ensures PartialRow(groups[..i + 1], d)
      == if groups[i].date == d then SetField(PartialRow(groups[..i], d), groups[i].eventType, groups[i].count)
         else PartialRow(groups[..i], d)
  {
    assert groups[..i + 1][..i] == groups[..i];
  }

  lemma PartialRowFresh(gs: seq<BucketGroup>, d: string)
    requires d !in Dates(gs)
    ensures PartialRow(gs, d) == SeriesRow(d, 0, 0, 0, None)
  {
    if gs != [] {
      var n := |gs| - 1;
      PartialRowFresh(gs[..n], d);
    }
  }

  /** The buckets of the groups `gs`. */
  function Dates(gs: seq<BucketGroup>): set<string> {
    if gs == [] then {} else Dates(gs[..|gs| - 1]) + {gs[|gs| - 1].date}
  }

  lemma {:induction false} DatesSpec(gs: seq<BucketGroup>)
    ensures forall d :: d in Dates(gs) <==> exists j :: 0 <= j < |gs| && gs[j].date == d
  {
    if gs != [] {
      var n := |gs| - 1;
      DatesSpec(gs[..n]);
      assert forall j :: 0 <= j < n ==> gs[..n][j] == gs[j];
    }
  }

  /** A bucket already opened by an earlier group is the bucket of the group just before. */
  lemma LatestBucket(groups: seq<BucketGroup>, i: nat, j: nat)
    requires DatesAscending(groups)
    requires j < i < |groups| && groups[j].date == groups[i].date
    ensures groups[i - 1].date == groups[i].date
  {
    if j < i - 1 {
      assert LexLe(groups[j].date, groups[i - 1].date);
    }
    assert LexLe(groups[i - 1].date, groups[i].date);
    LexLeAntisymmetric(groups[i - 1].date, groups[i].date);
  }

  /** Appending a key greater than the last keeps the keys strictly ascending. */
  lemma AppendAscending(order: seq<string>, x: string)
    requires StrictlySorted(order)
    requires order != [] ==> LexLess(order[|order| - 1], x)
    ensures StrictlySorted(order + [x])
  {
    forall a | 0 <= a < |order| - 1 ensures LexLess(order[a], x) {
      LexLessTransitive(order[a], order[|order| - 1], x);
    }
  }

  /** Rows built from the finished partial rows are exactly RowFor of their bucket. */
  lemma RowsAreRowFor(groups: seq<BucketGroup>, events: seq<Event>, bucket: int -> string,
                      order: seq<string>, rows: seq<SeriesRow>)
    requires IsBucketGrouping(groups, events, bucket)
    requires |rows| == |order| && forall k :: 0 <= k < |order| ==> rows[k] == PartialRow(groups, order[k])
    ensures forall k :: 0 <= k < |rows| ==> rows[k].date == order[k] && rows[k] == RowFor(events, bucket, rows[k].date)
  {
    forall k | 0 <= k < |rows| ensures rows[k].date == order[k] && rows[k] == RowFor(events, bucket, rows[k].date) {
      PartialRowComplete(groups, events, bucket, order[k]);
    }
  }

  /** A bucket that has a group has an event, and every event's bucket has a group. */
  lemma BucketsMatchEvents(groups: seq<BucketGroup>, events: seq<Event>, bucket: int -> string, d: string)
    requires IsBucketGrouping(groups, events, bucket)
    ensures (exists j :: 0 <= j < |groups| && groups[j].date == d) <==> Occupied(events, bucket, d)
  {
    if j :| 0 <= j < |groups| && groups[j].date == d {
      CountAtPositive(events, bucket, d, groups[j].eventType);
    }
  }

  /** The dictionary after the first `i` groups: one row per bucket seen, holding the counts seen. */
  ghost predicate RowsInv(groups: seq<BucketGroup>, i: nat, formatted: map<string, SeriesRow>)
    requires i <= |groups|
  {
    && formatted.Keys == Dates(groups[..i])
    && (forall d :: d in formatted ==> formatted[d] == PartialRow(groups[..i], d))
  }

  /** The key order after the first `i` groups: the keys, ascending, the last one the bucket of group `i - 1`. */
  ghost predicate OrderInv(groups: seq<BucketGroup>, i: nat, keys: set<string>, order: seq<string>)
    requires i <= |groups|
  {
    && (forall d :: d in keys <==> d in order)
    && StrictlySorted(order)
    && (i == 0 <==> order == [])
    && (i > 0 ==> order[|order| - 1] == groups[i - 1].date)
  }

  /** What the pivot loop knows after processing the first `i` groups. */
  ghost predicate FormatInv(groups: seq<BucketGroup>, i: nat, formatted: map<string, SeriesRow>, order: seq<string>)
    requires i <= |groups|
  {
    RowsInv(groups, i, formatted) && OrderInv(groups, i, formatted.Keys, order)
  }

  lemma DatesStep(groups: seq<BucketGroup>, i: nat)
    requires i < |groups|
    ensures Dates(groups[..i + 1]) == Dates(groups[..i]) + {groups[i].date}
  {
    assert groups[..i + 1][..i] == groups[..i];
  }

  /** The pivot step keeps each stored row equal to PartialRow of the groups seen. */
  lemma RowsStep(groups: seq<BucketGroup>, i: nat, formatted: map<string, SeriesRow>, formatted': map<string, SeriesRow>)
    requires i < |groups| && RowsInv(groups, i, formatted)
    requires var g := groups[i];
      formatted' == formatted[g.date := SetField(
        if g.date in formatted then formatted[g.date] else SeriesRow(g.date, 0, 0, 0, None), g.eventType, g.count)]
    ensures formatted'.Keys == formatted.Keys + {groups[i].date}
    ensures RowsInv(groups, i + 1, formatted')
  {
    var g := groups[i];
    DatesStep(groups, i);
    if g.date !in formatted {
      PartialRowFresh(groups[..i], g.date);
    }
    forall d | d in formatted' ensures formatted'[d] == PartialRow(groups[..i + 1], d) {
      PartialRowStep(groups, i, d);
    }
  }

  /** The pivot step appends a bucket only when it is new, and new buckets arrive in ascending order. */
  lemma OrderStep(groups: seq<BucketGroup>, i: nat, keys: set<string>, order: seq<string>, order': seq<string>)
    requires DatesAscending(groups) && i < |groups| && keys == Dates(groups[..i])
    requires OrderInv(groups, i, keys, order)
    requires order' == if groups[i].date in keys then order else order + [groups[i].date]
    ensures OrderInv(groups, i + 1, keys + {groups[i].date}, order')
  {
    var g := groups[i];
    if g.date in keys {
      DatesSpec(groups[..i]);
      var j :| 0 <= j < i && groups[..i][j].date == g.date;
      LatestBucket(groups, i, j);
    } else {
      if order != [] {
        assert LexLe(groups[i - 1].date, g.date);
      }
      AppendAscending(order, g.date);
    }
  }

  /** One iteration of the pivot loop keeps FormatInv. */
  lemma FormatStep(groups: seq<BucketGroup>, i: nat, formatted: map<string, SeriesRow>, order: seq<string>,
                   formatted': map<string, SeriesRow>, order': seq<string>)
    requires DatesAscending(groups) && i < |groups| && FormatInv(groups, i, formatted, order)
    requires var g := groups[i];
      && order' == (if g.date in formatted then order else order + [g.date])
      && formatted' == formatted[g.date := SetField(
           if g.date in formatted then formatted[g.date] else SeriesRow(g.date, 0, 0, 0, None), g.eventType, g.count)]
    ensures FormatInv(groups, i + 1, formatted', order')
  {
    RowsStep(groups, i, formatted, formatted');
    OrderStep(groups, i, formatted.Keys, order, order');
  }

  /**
   * The pivot loop: `formatted` is the dictionary keyed by bucket and
   * `order` its key insertion order, which `Object.values` follows. Because
   * the groups arrive sorted by bucket, keys are inserted strictly ascending.
   */
  method Format(groups: seq<BucketGroup>) returns (formatted: map<string, SeriesRow>, order: seq<string>)
    requires DatesAscending(groups)
    ensures forall d :: d in formatted <==> d in order
    ensures formatted.Keys == Dates(groups)
    ensures forall d :: d in formatted ==> formatted[d] == PartialRow(groups, d)
    ensures StrictlySorted(order)
  {
    formatted, order := map[], [];
    for i := 0 to |groups|
      invariant FormatInv(groups, i, formatted, order)
    {
      var g := groups[i];
      ghost var formatted0, order0 := formatted, order;
      var row: SeriesRow;
      if g.date in formatted {
        row := formatted[g.date];
      } else {
        row := SeriesRow(g.date, 0, 0, 0, None);
        order := order + [g.date];
      }
      formatted := formatted[g.date := SetField(row, g.eventType, g.count)];
      FormatStep(groups, i, formatted0, order0, formatted, order);
    }
    assert groups[..|groups|] == groups;
  }

  /** The buckets the pivot visits are exactly the buckets of the events. */
  lemma OrderBuckets(groups: seq<BucketGroup>, events: seq<Event>, bucket: int -> string, order: seq<string>)
    requires IsBucketGrouping(groups, events, bucket)
    requires forall d :: d in order <==> d in Dates(groups)
    ensures forall d :: d in order <==> Occupied(events, bucket, d)
  {
    DatesSpec(groups);
    forall d ensures d in order <==> Occupied(events, bucket, d) {
      BucketsMatchEvents(groups, events, bucket, d);
    }
  }

  /** Rows listed in the order of strictly ascending keys, one per key. */
  lemma RowsListed(events: seq<Event>, bucket: int -> string, order: seq<string>, rows: seq<SeriesRow>)
    requires StrictlySorted(order)
    requires forall d :: d in order <==> Occupied(events, bucket, d)
    requires |rows| == |order| && forall k :: 0 <= k < |rows| ==> rows[k].date == order[k]
    ensures forall i, j :: 0 <= i < j < |rows| ==> LexLess(rows[i].date, rows[j].date)
    ensures forall e :: e in events ==> exists i :: 0 <= i < |rows| && rows[i].date == bucket(e.timestamp)
    ensures forall i :: 0 <= i < |rows| ==> Occupied(events, bucket, rows[i].date)
  {
    forall e | e in events ensures exists k :: 0 <= k < |rows| && rows[k].date == bucket(e.timestamp) {
      assert bucket(e.timestamp) in order;
      var k :| 0 <= k < |order| && order[k] == bucket(e.timestamp);
    }
    forall k | 0 <= k < |rows| ensures Occupied(events, bucket, rows[k].date) {
      assert order[k] in order;
    }
  }

  /** `Object.values(formatted)`: one row per bucket, ascending, each the bucket's zero-filled counts. */
  method Pivot(groups: seq<BucketGroup>, ghost events: seq<Event>, ghost bucket: int -> string)
    returns (rows: seq<SeriesRow>)
    requires IsBucketGrouping(groups, events, bucket)
    ensures forall i, j :: 0 <= i < j < |rows| ==> LexLess(rows[i].date, rows[j].date)
    ensures forall i :: 0 <= i < |rows| ==> rows[i] == RowFor(events, bucket, rows[i].date)
    ensures forall e :: e in events ==> exists i :: 0 <= i < |rows| && rows[i].date == bucket(e.timestamp)
    ensures forall i :: 0 <= i < |rows| ==> Occupied(events, bucket, rows[i].date)
  {
    var formatted, order := Format(groups);
    rows := seq(|order|, k requires 0 <= k < |order| => formatted[order[k]]);
    assert forall k :: 0 <= k < |order| ==> rows[k] == PartialRow(groups, order[k]) by {
      forall k | 0 <= k < |order| ensures rows[k] == PartialRow(groups, order[k]) {
        assert order[k] in order;
      }
    }
    RowsAreRowFor(groups, events, bucket, order, rows);
    OrderBuckets(groups, events, bucket, order);
    RowsListed(events, bucket, order, rows);
  }

  /**
   * What the time series promises about `events`: rows strictly ascending
   * by bucket key, each the zero-filled counts of its bucket, a row for
   * every bucket that has an event and none for an empty bucket.
   */
  ghost predicate IsSeries(rows: seq<SeriesRow>, events: seq<Event>, bucket: int -> string) {
    && (forall i, j :: 0 <= i < j < |rows| ==> LexLess(rows[i].date, rows[j].date))
    && (forall i :: 0 <= i < |rows| ==> rows[i] == RowFor(events, bucket, rows[i].date))
    && (forall e :: e in events ==> exists i :: 0 <= i < |rows| && rows[i].date == bucket(e.timestamp))
    && (forall i :: 0 <= i < |rows| ==> Occupied(events, bucket, rows[i].date))
  }

  /** An occupied bucket has an event. */
  lemma OccupiedHasEvents(events: seq<Event>, bucket: int -> string, d: string)
    requires Occupied(events, bucket, d)
    ensures events != []
  {
  }

  /** Without events there are no rows. */
  lemma NoEventsNoSeries(rows: seq<SeriesRow>, bucket: int -> string)
    requires IsSeries(rows, [], bucket)
    ensures rows == []
  {
    if rows != [] {
      OccupiedHasEvents([], bucket, rows[0].date);
    }
  }

  /**
   * `getTimeSeriesData(campaignId, startDate, endDate, groupBy)`: rows
   * strictly ascending by bucket key, one per bucket that has events and
   * none for empty buckets, each with its zero-filled counts.
   */
  method TimeSeriesData(log: seq<Event>, campaignId: CampaignId, w: Window, groupBy: Option<string>,
                        dateToString: (string, int) -> string)
    returns (rows: seq<SeriesRow>)
    ensures IsSeries(rows, Matching(log, Only({campaignId}), w), Bucketer(dateToString, ParseGroupBy(groupBy)))
  {
    var bucket := Bucketer(dateToString, ParseGroupBy(groupBy));
    var matched := Matching(log, Only({campaignId}), w);
    rows := Pivot(BucketGroups(matched, bucket), matched, bucket);
  }
}
