/**
 * Conditional-count grouping and top-N ranking, the declarative pipelines of
 * src/controllers/analyticsController.js: `$group` on one key computing, per
 * group, how many events are impressions, clicks and conversions (views are
 * not tallied), then optionally `$sort: {impressions: -1}` and `$limit`.
 */
module Breakdown {
  import opened Wrappers
  import opened Events

  /** One `$group` row: the group key and its three conditional counts. */
  datatype Tally<K> = Tally(key: K, impressions: nat, clicks: nat, conversions: nat)

  /** The tally field an event type adds to; views add to none. */
  function Field<K>(r: Tally<K>, t: EventType): nat {
    match t
    case Impression => r.impressions
    case Click => r.clicks
    case Conversion => r.conversions
    case View => 0
  }

  /** `$sum: {$cond: [{$eq: ['$eventType', t]}, 1, 0]}` for one more event. */
  function Bump<K>(r: Tally<K>, t: EventType): (r': Tally<K>)
    ensures r'.key == r.key
    ensures forall u :: Field(r', u) == Field(r, u) + (if u == t && t != View then 1 else 0)
  {
    match t
    case Impression => r.(impressions := r.impressions + 1)
    case Click => r.(clicks := r.clicks + 1)
    case Conversion => r.(conversions := r.conversions + 1)
    case View => r
  }

  ghost predicate Distinct<K>(rows: seq<Tally<K>>) {
    forall i, j :: 0 <= i < j < |rows| ==> rows[i].key != rows[j].key
  }

  /** The row with key `k`, if any. */
  function Find<K(==)>(rows: seq<Tally<K>>, k: K): Option<Tally<K>> {
    if rows == [] then None else if rows[0].key == k then Some(rows[0]) else Find(rows[1..], k)
  }

  /** Adds one event with key `k` and type `t` to the group rows. */
  function Add<K(==,!new)>(rows: seq<Tally<K>>, k: K, t: EventType): (r: seq<Tally<K>>)
    ensures forall k' :: Find(r, k') == if k' == k then Some(Bump(Find(rows, k).GetOr(Tally(k, 0, 0, 0)), t)) else Find(rows, k')
    ensures Distinct(rows) ==> Distinct(r)
    ensures forall i :: 0 <= i < |r| ==> r[i].key == k || exists j :: 0 <= j < |rows| && rows[j].key == r[i].key
  {
    if rows == [] then [Bump(Tally(k, 0, 0, 0), t)]
    else if rows[0].key == k then [Bump(rows[0], t)] + rows[1..]
    else [rows[0]] + Add(rows[1..], k, t)
  }

  /** Events of type `t` whose key is `k`. */
  function KeyCount<K(==)>(events: seq<Event>, keyOf: Event -> K, k: K, t: EventType): nat {
    if events == [] then 0
    else
      var n := |events| - 1;
      KeyCount(events[..n], keyOf, k, t) + (if keyOf(events[n]) == k && events[n].eventType == t then 1 else 0)
  }

  lemma {:induction false} KeyCountAbsent<K>(events: seq<Event>, keyOf: Event -> K, k: K, t: EventType)
    requires forall e :: e in events ==> keyOf(e) != k
    ensures KeyCount(events, keyOf, k, t) == 0
  {
    if events != [] {
      var n := |events| - 1;
      assert events[n] in events;
      assert forall e :: e in events[..n] ==> e in events;
      KeyCountAbsent(events[..n], keyOf, k, t);
    }
  }

  /** What the group row for key `k` must be: present exactly when some event has that key. */
  ghost function Expected<K>(events: seq<Event>, keyOf: Event -> K, k: K): Option<Tally<K>> {
    if exists e :: e in events && keyOf(e) == k then
      Some(Tally(k, KeyCount(events, keyOf, k, Impression), KeyCount(events, keyOf, k, Click), KeyCount(events, keyOf, k, Conversion)))
    else None
  }

  /** `$group: {_id: <key>, impressions, clicks, conversions}` over `events`, rows in first-seen order. */
  function GroupBy<K(==,!new)>(events: seq<Event>, keyOf: Event -> K): (rows: seq<Tally<K>>)
    ensures Distinct(rows)
    ensures forall k :: Find(rows, k) == Expected(events, keyOf, k)
  {
    if events == [] then []
    else
      var n := |events| - 1;
      var rows := GroupBy(events[..n], keyOf);
      GroupStep(events, keyOf, rows);
      Add(rows, keyOf(events[n]), events[n].eventType)
  }

  /** Adding the last event to the groups of the others gives the groups of all of them. */
  lemma GroupStep<K(!new)>(events: seq<Event>, keyOf: Event -> K, rows: seq<Tally<K>>)
    requires events != []
    requires forall k :: Find(rows, k) == Expected(events[..|events| - 1], keyOf, k)
    ensures forall k :: Find(Add(rows, keyOf(events[|events| - 1]), events[|events| - 1].eventType), k) == Expected(events, keyOf, k)
  {
    var n := |events| - 1;
    var last := events[n];
    assert forall e :: e in events <==> e in events[..n] || e == last by {
      assert events == events[..n] + [last];
    }
    forall k ensures Find(Add(rows, keyOf(last), last.eventType), k) == Expected(events, keyOf, k) {
      if k == keyOf(last) {
        GroupStepKey(events, keyOf, rows);
      }
    }
  }

  /** The row of the last event's key after adding it. */
  lemma GroupStepKey<K(!new)>(events: seq<Event>, keyOf: Event -> K, rows: seq<Tally<K>>)
    requires events != []
    requires Find(rows, keyOf(events[|events| - 1])) == Expected(events[..|events| - 1], keyOf, keyOf(events[|events| - 1]))
    ensures Find(Add(rows, keyOf(events[|events| - 1]), events[|events| - 1].eventType), keyOf(events[|events| - 1]))
      == Expected(events, keyOf, keyOf(events[|events| - 1]))
  {
    var n := |events| - 1;
    var last := events[n];
    var k := keyOf(last);
    assert last in events;
    if Find(rows, k).None? {
      KeyCountAbsent(events[..n], keyOf, k, Impression);
      KeyCountAbsent(events[..n], keyOf, k, Click);
      KeyCountAbsent(events[..n], keyOf, k, Conversion);
    }
  }

  /** Every group row stands for at least one of the grouped events. */
  lemma GroupKeyOccurs<K(!new)>(events: seq<Event>, keyOf: Event -> K, r: Tally<K>)
    requires r in GroupBy(events, keyOf)
    ensures exists e :: e in events && keyOf(e) == r.key
  {
    var rows := GroupBy(events, keyOf);
    var i :| 0 <= i < |rows| && rows[i] == r;
    FindInRows(rows, i);
    assert Find(rows, r.key) == Expected(events, keyOf, r.key);
  }

  lemma {:induction false} FindInRows<K>(rows: seq<Tally<K>>, i: nat)
    requires Distinct(rows) && i < |rows|
    ensures Find(rows, rows[i].key) == Some(rows[i])
  {
    if i > 0 {
      FindInRows(rows[1..], i - 1);
    }
  }

  /**
   * Every matched event falls in exactly one group (an unset device or
   * country is a group of its own), and each group's counts are the numbers
   * of its events of each type.
   */
  ghost predicate IsGrouping<K>(rows: seq<Tally<K>>, events: seq<Event>, keyOf: Event -> K) {
      && (forall e :: e in events ==> exists i :: 0 <= i < |rows| && rows[i].key == keyOf(e))
      && (forall i, j :: 0 <= i < j < |rows| ==> rows[i].key != rows[j].key)
      && (forall i :: 0 <= i < |rows| ==>
            && (exists e :: e in events && keyOf(e) == rows[i].key)
            && rows[i].impressions == KeyCount(events, keyOf, rows[i].key, Impression)
            && rows[i].clicks == KeyCount(events, keyOf, rows[i].key, Click)
            && rows[i].conversions == KeyCount(events, keyOf, rows[i].key, Conversion))
  }

  lemma GroupRows<K(!new)>(events: seq<Event>, keyOf: Event -> K)
    ensures IsGrouping(GroupBy(events, keyOf), events, keyOf)
  {
    var rows := GroupBy(events, keyOf);
    forall i | 0 <= i < |rows|
      ensures Find(rows, rows[i].key) == Some(rows[i])
    {
      FindInRows(rows, i);
    }
    forall e | e in events
      ensures exists i :: 0 <= i < |rows| && rows[i].key == keyOf(e)
    {
      assert Find(rows, keyOf(e)) == Expected(events, keyOf, keyOf(e));
      FindSome(rows, keyOf(e));
    }
  }

  lemma {:induction false} FindSome<K>(rows: seq<Tally<K>>, k: K)
    requires Find(rows, k).Some?
    ensures exists i :: 0 <= i < |rows| && rows[i].key == k
  {
    if rows[0].key != k {
      FindSome(rows[1..], k);
    }
  }

  /** Sum of one tally field over all rows. */
  function Sum<K>(rows: seq<Tally<K>>, t: EventType): nat {
    if rows == [] then 0 else Field(rows[0], t) + Sum(rows[1..], t)
  }

  lemma {:induction false} SumAdd<K(!new)>(rows: seq<Tally<K>>, k: K, t: EventType, u: EventType)
    ensures Sum(Add(rows, k, t), u) == Sum(rows, u) + (if u == t && t != View then 1 else 0)
  {
    if rows != [] && rows[0].key != k {
      SumAdd(rows[1..], k, t, u);
    }
  }

  /** No event is lost or counted twice: the groups' counts add up to the totals. */
  lemma {:induction false} GroupTotals<K(!new)>(events: seq<Event>, keyOf: Event -> K, t: EventType)
    requires t != View
    ensures Sum(GroupBy(events, keyOf), t) == Count(events, t)
  {
    if events != [] {
      var n := |events| - 1;
      GroupTotals(events[..n], keyOf, t);
      SumAdd(GroupBy(events[..n], keyOf), keyOf(events[n]), events[n].eventType, t);
      assert events == events[..n] + [events[n]];
      CountAppend(events[..n], [events[n]], t);
    }
  }

  // ---------------------------------------------------------------------
  // `$sort: {impressions: -1}` then `$limit: n`

  ghost predicate Descending<K>(s: seq<Tally<K>>) {
    forall i, j :: 0 <= i < j < |s| ==> s[i].impressions >= s[j].impressions
  }

  function InsertDesc<K(==)>(x: Tally<K>, s: seq<Tally<K>>): (r: seq<Tally<K>>)
    ensures multiset(r) == multiset(s) + multiset{x}
    ensures forall y :: y in r ==> y == x || y in s
  {
    if s == [] then [x]
    else if s[0].impressions < x.impressions then [x] + s
    else
      assert s == [s[0]] + s[1..];
      [s[0]] + InsertDesc(x, s[1..])
  }

  lemma {:induction false} InsertDescSorted<K>(x: Tally<K>, s: seq<Tally<K>>)
    requires Descending(s)
    ensures Descending(InsertDesc(x, s))
  {
    if s != [] && s[0].impressions >= x.impressions {
      var rest := InsertDesc(x, s[1..]);
      InsertDescSorted(x, s[1..]);
      forall y | y in rest ensures y.impressions <= s[0].impressions {
        if y != x {
          var j :| 0 <= j < |s[1..]| && s[1..][j] == y;
          assert s[j + 1] == y;
        }
      }
      assert InsertDesc(x, s) == [s[0]] + rest;
    }
  }

  /** A sort by impressions, descending; rows with equal impressions keep their order. */
  function SortDesc<K(==)>(s: seq<Tally<K>>): (r: seq<Tally<K>>)
    ensures multiset(r) == multiset(s)
    ensures Descending(r)
  {
    if s == [] then []
    else
      var n := |s| - 1;
      assert s == s[..n] + [s[n]];
      InsertDescSorted(s[n], SortDesc(s[..n]));
      InsertDesc(s[n], SortDesc(s[..n]))
  }

  /** The first `n` rows by impressions. */
  function Top<K(==)>(rows: seq<Tally<K>>, n: nat): seq<Tally<K>> {
    var sorted := SortDesc(rows);
    sorted[..if n < |sorted| then n else |sorted|]
  }

  /**
   * `out` is what `$sort: {impressions: -1}, $limit: n` may return for
   * `rows`: the sort has no tie-break, so any order consistent with
   * descending impressions is allowed.
   */
  ghost predicate IsRanking<K>(out: seq<Tally<K>>, rows: seq<Tally<K>>, n: nat) {
    && |out| == (if n < |rows| then n else |rows|)
    && Descending(out)
    && multiset(out) <= multiset(rows)
    && (forall r, i :: r in multiset(rows) - multiset(out) && 0 <= i < |out| ==> r.impressions <= out[i].impressions)
  }

  /** The concrete sort and limit are one of the allowed rankings. */
  lemma TopIsRanking<K>(rows: seq<Tally<K>>, n: nat)
    ensures IsRanking(Top(rows, n), rows, n)
  {
    var sorted := SortDesc(rows);
    var m := if n < |sorted| then n else |sorted|;
    assert |sorted| == |multiset(sorted)| == |rows|;
    DescendingSplit(sorted, m);
  }

  /** In a descending sequence, nothing after position m beats anything before it. */
  lemma DescendingSplit<K>(sorted: seq<Tally<K>>, m: nat)
    requires Descending(sorted) && m <= |sorted|
    ensures multiset(sorted) - multiset(sorted[..m]) == multiset(sorted[m..])
    ensures forall r, i :: r in multiset(sorted) - multiset(sorted[..m]) && 0 <= i < m ==> r.impressions <= sorted[..m][i].impressions
  {
    assert sorted == sorted[..m] + sorted[m..];
    forall r, i | r in multiset(sorted[m..]) && 0 <= i < m
      ensures r.impressions <= sorted[i].impressions
    {
      var j :| m <= j < |sorted| && sorted[j] == r;
    }
  }

  /** A ranking never has more than `n` rows, and each of them is one of the input rows. */
  lemma RankingBounded<K>(out: seq<Tally<K>>, rows: seq<Tally<K>>, n: nat)
    requires IsRanking(out, rows, n)
    ensures |out| <= n && |out| <= |rows|
    ensures forall r :: r in out ==> r in rows
  {
    forall r | r in out ensures r in rows {
      assert r in multiset(out);
    }
  }

  /** With A at 100 impressions and B at 50, a limit of 1 leaves exactly [A]. */
  lemma RankingScenario<K>(a: Tally<K>, b: Tally<K>, out: seq<Tally<K>>)
    requires a.impressions == 100 && b.impressions == 50
    requires IsRanking(out, [a, b], 1)
    ensures out == [a]
  {
    assert out[0] in multiset(out);
  }
}
