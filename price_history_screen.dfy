/**
 * The price-history chart of one watch
 * (mobile/src/screens/priceWatch/PriceHistoryScreen.tsx): the fetched price
 * checks are sorted oldest first into a copy, grouped by calendar day keeping
 * each day's lowest price, and charted as one label and one point per day.
 * Converting a time to a local calendar date depends on the device's time
 * zone, so that conversion is an input (`dateOf`).
 */
module PriceHistory {
  import opened Wrappers
  import opened JsText
  import opened StableSort

  /** One recorded price check; `scrapedAt` is in milliseconds. */
  datatype HistoryEntry = HistoryEntry(
    store: string,
    price: real,
    inStock: bool,
    productUrl: Option<string>,
    scrapedAt: int)

  /** A local calendar date as `Date` reports it: `month` counts from 0. */
  datatype CalendarDate = CalendarDate(month: nat, day: nat)

  // ---------------------------------------------------------------------------
  // Date keys
  // ---------------------------------------------------------------------------

  /** `formatDate`: "<month + 1>/<day>". */
  function FormatDate(d: CalendarDate): (key: string)
    ensures |key| >= 3 && '/' in key
  {
    NatToString(d.month + 1) + "/" + NatToString(d.day)
  }

  /** Distinct dates give distinct keys (the year is not part of either). */
  lemma FormatDateInjective(a: CalendarDate, b: CalendarDate)
    requires FormatDate(a) == FormatDate(b)
    ensures a == b
  {
    var ma, mb := NatToString(a.month + 1), NatToString(b.month + 1);
    var da, db := NatToString(a.day), NatToString(b.day);
    SlashAfterDigits(ma, da, mb, db);
    SlashAfterDigits(mb, db, ma, da);
    assert ma == (ma + "/" + da)[..|ma|];
    assert mb == (mb + "/" + db)[..|mb|];
    assert da == (ma + "/" + da)[|ma| + 1..];
    assert db == (mb + "/" + db)[|mb| + 1..];
    NatToStringInjective(a.month + 1, b.month + 1);
    NatToStringInjective(a.day, b.day);
  }

  /** In "<digits>/<rest>" the slash is the first non-digit, so it fixes the digits' length. */
  lemma SlashAfterDigits(x: string, y: string, x2: string, y2: string)
    requires AllDigits(x) && AllDigits(x2)
    requires x + "/" + y == x2 + "/" + y2
    ensures |x| <= |x2|
  {
    var s := x + "/" + y;
    assert s[|x2|] == (x2 + "/" + y2)[|x2|] == '/';
    assert forall i | 0 <= i < |x| :: s[i] == x[i];
  }

  /** The date key of an entry. */
  function DayKey(dateOf: int -> CalendarDate, e: HistoryEntry): string {
    FormatDate(dateOf(e.scrapedAt))
  }

  /** The date key as a function of the entry alone. */
  function DayKeyOf(dateOf: int -> CalendarDate): HistoryEntry -> string {
    e => DayKey(dateOf, e)
  }

  // ---------------------------------------------------------------------------
  // Sorting a copy, oldest first
  // ---------------------------------------------------------------------------

  /** Sort key for "oldest first" under a sort that puts larger keys first. */
  function Recency(e: HistoryEntry): real {
    -(e.scrapedAt as real)
  }

  function SortedHistory(history: seq<HistoryEntry>): (sorted: seq<HistoryEntry>)
    ensures |sorted| == |history|
  {
    SortBy(Recency, history)
  }

  /** The copy holds the same entries, oldest first. */
  lemma SortedHistoryAscending(history: seq<HistoryEntry>)
    ensures multiset(SortedHistory(history)) == multiset(history)
    ensures forall i, j :: 0 <= i < j < |history| ==>
              SortedHistory(history)[i].scrapedAt <= SortedHistory(history)[j].scrapedAt
  {
    SortIsSortedPermutation(Recency, history);
    var s := SortedHistory(history);
    forall i, j | 0 <= i < j < |history|
      ensures s[i].scrapedAt <= s[j].scrapedAt
    {
      assert Recency(s[i]) >= Recency(s[j]);
    }
  }

  // ---------------------------------------------------------------------------
  // Lowest price per day
  // ---------------------------------------------------------------------------

  /**
   * The dictionary the grouping builds: its keys in insertion order (the
   * order `Object.keys` and `Object.values` report) and the entry per key.
   */
  datatype Daily<K> = Daily(labels: seq<K>, kept: map<K, HistoryEntry>)

  /** The grouping of `entries`, one entry at a time. */
  function Grouped<K(==)>(key: HistoryEntry -> K, entries: seq<HistoryEntry>): (g: Daily<K>)
    ensures g.kept.Keys == set k | k in g.labels
    ensures |g.labels| == 0 <==> |entries| == 0
    decreases |entries|
  {
    if entries == [] then Daily([], map[])
    else
      var g := Grouped(key, entries[..|entries| - 1]);
      var e := entries[|entries| - 1];
      var k := key(e);
      if k !in g.kept then Daily(g.labels + [k], g.kept[k := e])
      else if e.price < g.kept[k].price then Daily(g.labels, g.kept[k := e])
      else g
  }

  /** `entries[i]` is a lowest-priced entry of day `k`, and the first such. */
  predicate IsDayMinimum<K(==)>(key: HistoryEntry -> K, entries: seq<HistoryEntry>, k: K, i: nat) {
    && i < |entries|
    && key(entries[i]) == k
    && (forall j | 0 <= j < |entries| && key(entries[j]) == k ::
          entries[i].price <= entries[j].price && (j < i ==> entries[i].price < entries[j].price))
  }

  /** `i` is the first index of an entry of day `k`. */
  predicate IsFirstOfDay<K(==)>(key: HistoryEntry -> K, entries: seq<HistoryEntry>, k: K, i: nat) {
    && i < |entries|
    && key(entries[i]) == k
    && (forall j | 0 <= j < i :: key(entries[j]) != k)
  }

  /** Every entry's day is a key of the grouping. */
  lemma {:induction false} GroupedCoversEntries<K>(key: HistoryEntry -> K, entries: seq<HistoryEntry>)
    ensures forall i | 0 <= i < |entries| :: key(entries[i]) in Grouped(key, entries).kept
    decreases |entries|
  {
    if entries != [] {
      var n := |entries| - 1;
      GroupedCoversEntries(key, entries[..n]);
      assert forall i | 0 <= i < n :: entries[i] == entries[..n][i];
    }
  }

  /** Each key keeps its day's first lowest-priced entry; `at` gives its index. */
  lemma {:induction false} GroupedMinimum<K>(key: HistoryEntry -> K, entries: seq<HistoryEntry>)
    returns (at: map<K, nat>)
    ensures MinimaAt(key, entries, at)
    decreases |entries|
  {
    if entries == [] {
      return map[];
    }
    var n := |entries| - 1;
    assert entries == entries[..n] + [entries[n]];
    var at0 := GroupedMinimum(key, entries[..n]);
    at := MinimumStep(key, entries[..n], entries[n], at0);
  }

  /** `at` gives, for each key of the grouping, the index of the day's first lowest-priced entry, which is the one kept. */
  predicate MinimaAt<K(==)>(key: HistoryEntry -> K, entries: seq<HistoryEntry>, at: map<K, nat>) {
    var g := Grouped(key, entries);
    && at.Keys == g.kept.Keys
    && (forall k | k in at :: IsDayMinimum(key, entries, k, at[k]) && g.kept[k] == entries[at[k]])
  }

  /** One more entry: it becomes its day's minimum when the day is new or it is strictly cheaper. */
  lemma MinimumStep<K>(key: HistoryEntry -> K, p: seq<HistoryEntry>, e: HistoryEntry, at0: map<K, nat>)
    returns (at: map<K, nat>)
    requires MinimaAt(key, p, at0)
    ensures MinimaAt(key, p + [e], at)
  {
    var g, g' := Grouped(key, p), Grouped(key, p + [e]);
    GroupedSnoc(key, p, e);
    GroupedCoversEntries(key, p);
    at := MinimaStep(key, p, e, at0, g.kept, g'.kept);
  }

  /** The step of `MinimumStep` on the kept entries alone: `kept` before `e`, `kept'` after. */
  lemma MinimaStep<K>(key: HistoryEntry -> K, p: seq<HistoryEntry>, e: HistoryEntry, at0: map<K, nat>,
                      kept: map<K, HistoryEntry>, kept': map<K, HistoryEntry>)
    returns (at: map<K, nat>)
    requires at0.Keys == kept.Keys
    requires forall k | k in at0 :: IsDayMinimum(key, p, k, at0[k]) && kept[k] == p[at0[k]]
    requires forall j | 0 <= j < |p| :: key(p[j]) in kept
    requires kept' == if key(e) !in kept || e.price < kept[key(e)].price then kept[key(e) := e] else kept
    ensures at.Keys == kept'.Keys
    ensures forall k | k in at :: IsDayMinimum(key, p + [e], k, at[k]) && kept'[k] == (p + [e])[at[k]]
  {
    var k := key(e);
    var n := |p|;
    if k !in kept {
      at := at0[k := n];
      MinimumFresh(key, p, e);
    } else if e.price < kept[k].price {
      at := at0[k := n];
      MinimumReplaced(key, p, e, at0[k]);
    } else {
      at := at0;
      MinimumExtends(key, p, e, k, at0[k]);
    }
    forall k2 | k2 in at && k2 != k
      ensures IsDayMinimum(key, p + [e], k2, at[k2]) && kept'[k2] == (p + [e])[at[k2]]
    {
      MinimumExtends(key, p, e, k2, at0[k2]);
    }
  }

  /** Labels are ordered by each day's first appearance; `first` gives it. */
  lemma {:induction false} GroupedOrder<K>(key: HistoryEntry -> K, entries: seq<HistoryEntry>)
    returns (first: map<K, nat>)
    ensures OrderedByFirst(key, entries, first)
    decreases |entries|
  {
    if entries == [] {
      return map[];
    }
    var n := |entries| - 1;
    assert entries == entries[..n] + [entries[n]];
    var first0 := GroupedOrder(key, entries[..n]);
    first := OrderStep(key, entries[..n], entries[n], first0);
  }

  /** `first` maps each label to its day's first index, and the labels follow those indices. */
  predicate OrderedByFirst<K(==)>(key: HistoryEntry -> K, entries: seq<HistoryEntry>, first: map<K, nat>) {
    var g := Grouped(key, entries);
    && first.Keys == g.kept.Keys
    && (forall k | k in first :: IsFirstOfDay(key, entries, k, first[k]))
    && (forall a, b | 0 <= a < b < |g.labels| :: first[g.labels[a]] < first[g.labels[b]])
  }

  /** One more entry: a new day gets its index as first appearance, and known days keep theirs. */
  lemma OrderStep<K>(key: HistoryEntry -> K, p: seq<HistoryEntry>, e: HistoryEntry, first0: map<K, nat>)
    returns (first: map<K, nat>)
    requires OrderedByFirst(key, p, first0)
    ensures OrderedByFirst(key, p + [e], first)
  {
    var g, g' := Grouped(key, p), Grouped(key, p + [e]);
    GroupedSnoc(key, p, e);
    GroupedCoversEntries(key, p);
    first := FirstsStep(key, p, e, first0, g.labels, g.kept.Keys, g'.labels, g'.kept.Keys);
  }

  /**
   * The step of `OrderStep` on the labels alone: `labels` are the days of
   * `p` in order and `days` the same days as a set; `labels'` and `days'`
   * are those of `p + [e]`.
   */
  lemma FirstsStep<K>(key: HistoryEntry -> K, p: seq<HistoryEntry>, e: HistoryEntry, first0: map<K, nat>,
                      labels: seq<K>, days: set<K>, labels': seq<K>, days': set<K>)
    returns (first: map<K, nat>)
    requires first0.Keys == days && days' == days + {key(e)}
    requires forall k :: k in days <==> k in labels
    requires forall k | k in first0 :: IsFirstOfDay(key, p, k, first0[k])
    requires forall a, b | 0 <= a < b < |labels| :: first0[labels[a]] < first0[labels[b]]
    requires key(e) !in labels ==> labels' == labels + [key(e)] && forall j | 0 <= j < |p| :: key(p[j]) != key(e)
    requires key(e) in labels ==> labels' == labels
    ensures first.Keys == days'
    ensures forall k | k in first :: IsFirstOfDay(key, p + [e], k, first[k])
    ensures forall a, b | 0 <= a < b < |labels'| :: first[labels'[a]] < first[labels'[b]]
  {
    FirstsExtend(key, p, e, first0);
    if key(e) in labels {
      first := first0;
    } else {
      first := first0[key(e) := |p|];
      MinimumFresh(key, p, e);
      OrderFresh(labels, first0, key(e), |p|);
    }
  }

  /** Appending an entry moves no recorded first appearance. */
  lemma FirstsExtend<K>(key: HistoryEntry -> K, p: seq<HistoryEntry>, e: HistoryEntry, first0: map<K, nat>)
    requires forall k | k in first0 :: IsFirstOfDay(key, p, k, first0[k])
    ensures forall k | k in first0 :: IsFirstOfDay(key, p + [e], k, first0[k]) && first0[k] < |p|
  {
    forall k | k in first0
      ensures IsFirstOfDay(key, p + [e], k, first0[k]) && first0[k] < |p|
    {
      FirstExtends(key, p, e, k, first0[k]);
    }
  }

  /** Appending an entry adds its day as the last label when the day is new, and no label otherwise. */
  lemma GroupedSnoc<K>(key: HistoryEntry -> K, p: seq<HistoryEntry>, e: HistoryEntry)
    ensures var g, g' := Grouped(key, p), Grouped(key, p + [e]);
            && g'.kept.Keys == g.kept.Keys + {key(e)}
            && g'.kept == (if key(e) !in g.kept || e.price < g.kept[key(e)].price then g.kept[key(e) := e] else g.kept)
            && (key(e) !in g.kept ==> g'.labels == g.labels + [key(e)])
            && (key(e) in g.kept ==> g'.labels == g.labels)
  {
    assert (p + [e])[..|p|] == p;
  }

  /** A new label whose first appearance is later than every earlier one keeps the labels ordered. */
  lemma OrderFresh<K>(labels: seq<K>, first0: map<K, nat>, k: K, n: nat)
    requires k !in labels
    requires forall a | 0 <= a < |labels| :: labels[a] in first0 && first0[labels[a]] < n
    requires forall a, b | 0 <= a < b < |labels| :: first0[labels[a]] < first0[labels[b]]
    ensures var first, ls := first0[k := n], labels + [k];
            forall a, b | 0 <= a < b < |ls| :: ls[a] in first && ls[b] in first && first[ls[a]] < first[ls[b]]
  {
    var first, ls := first0[k := n], labels + [k];
    forall a, b | 0 <= a < b < |ls|
      ensures ls[a] in first && ls[b] in first && first[ls[a]] < first[ls[b]]
    {
      assert ls[a] == labels[a] && ls[a] != k;
      if b < |labels| {
        assert ls[b] == labels[b] && ls[b] != k;
      } else {
        assert ls[b] == k;
      }
    }
  }

  /** The first entry of a day is its lowest so far, and the first of its day. */
  lemma MinimumFresh<K>(key: HistoryEntry -> K, p: seq<HistoryEntry>, e: HistoryEntry)
    requires forall j | 0 <= j < |p| :: key(p[j]) != key(e)
    ensures IsDayMinimum(key, p + [e], key(e), |p|)
    ensures IsFirstOfDay(key, p + [e], key(e), |p|)
  {
    var s := p + [e];
    assert forall j | 0 <= j < |p| :: s[j] == p[j];
  }

  /** A strictly lower price becomes its day's minimum. */
  lemma MinimumReplaced<K>(key: HistoryEntry -> K, p: seq<HistoryEntry>, e: HistoryEntry, i: nat)
    requires IsDayMinimum(key, p, key(e), i)
    requires e.price < p[i].price
    ensures IsDayMinimum(key, p + [e], key(e), |p|)
  {
    var s := p + [e];
    assert forall j | 0 <= j < |p| :: s[j] == p[j];
  }

  /** A day's minimum stays when the new entry is of another day or not cheaper. */
  lemma MinimumExtends<K>(key: HistoryEntry -> K, p: seq<HistoryEntry>, e: HistoryEntry, k: K, i: nat)
    requires IsDayMinimum(key, p, k, i)
    requires key(e) != k || p[i].price <= e.price
    ensures IsDayMinimum(key, p + [e], k, i)
  {
    var s := p + [e];
    assert forall j | 0 <= j < |p| :: s[j] == p[j];
  }

  /** Appending an entry moves no day's first appearance. */
  lemma FirstExtends<K>(key: HistoryEntry -> K, p: seq<HistoryEntry>, e: HistoryEntry, k: K, i: nat)
    requires IsFirstOfDay(key, p, k, i)
    ensures IsFirstOfDay(key, p + [e], k, i) && i < |p|
  {
    var s := p + [e];
    assert forall j | 0 <= j < |p| :: s[j] == p[j];
  }

  /** Each day keeps its lowest-priced entry and, among equal prices, the earliest. */
  lemma DailyMinimum<K>(key: HistoryEntry -> K, entries: seq<HistoryEntry>)
    ensures var g := Grouped(key, entries);
            && (forall i | 0 <= i < |entries| :: key(entries[i]) in g.kept)
            && (forall k | k in g.kept :: exists i: nat :: IsDayMinimum(key, entries, k, i) && g.kept[k] == entries[i])
  {
    var g := Grouped(key, entries);
    GroupedCoversEntries(key, entries);
    var at := GroupedMinimum(key, entries);
    forall k | k in g.kept
      ensures exists i: nat :: IsDayMinimum(key, entries, k, i) && g.kept[k] == entries[i]
    {
      assert IsDayMinimum(key, entries, k, at[k]);
    }
  }

  /**
   * One label per distinct day, none repeated, in order of first appearance:
   * every entry of a later label comes after some entry of an earlier one.
   */
  lemma DailyLabelOrder<K>(key: HistoryEntry -> K, entries: seq<HistoryEntry>)
    ensures var g := Grouped(key, entries);
            && (forall a, b | 0 <= a < b < |g.labels| :: g.labels[a] != g.labels[b])
            && (forall a, b, j | 0 <= a < b < |g.labels| && 0 <= j < |entries| && key(entries[j]) == g.labels[b] ::
                  exists i: nat :: i < j && key(entries[i]) == g.labels[a])
  {
    var g := Grouped(key, entries);
    var first := GroupedOrder(key, entries);
    forall a, b, j | 0 <= a < b < |g.labels| && 0 <= j < |entries| && key(entries[j]) == g.labels[b]
      ensures exists i: nat :: i < j && key(entries[i]) == g.labels[a]
    {
      assert IsFirstOfDay(key, entries, g.labels[a], first[g.labels[a]]);
      assert IsFirstOfDay(key, entries, g.labels[b], first[g.labels[b]]);
    }
  }

  /** The grouping of one more entry of `s`, in terms of the grouping before it. */
  lemma GroupedPrefixStep<K>(key: HistoryEntry -> K, s: seq<HistoryEntry>, i: nat)
    requires i < |s|
    ensures var g, k := Grouped(key, s[..i]), key(s[i]);
            Grouped(key, s[..i + 1]) ==
              if k !in g.kept then Daily(g.labels + [k], g.kept[k := s[i]])
              else if s[i].price < g.kept[k].price then Daily(g.labels, g.kept[k := s[i]])
              else g
  {
    assert s[..i + 1][..i] == s[..i];
  }

  /**
   * The `reduce` over the sorted copy, then `Object.keys` and `Object.values`:
   * the chart's labels and its points, one per label.
   */
  method DailyPrices(dateOf: int -> CalendarDate, sorted: seq<HistoryEntry>)
    returns (labels: seq<string>, data: seq<real>)
    ensures labels == Grouped(DayKeyOf(dateOf), sorted).labels
    ensures |data| == |labels|
    ensures forall j | 0 <= j < |labels| :: data[j] == Grouped(DayKeyOf(dateOf), sorted).kept[labels[j]].price
  {
    var acc: map<string, HistoryEntry> := map[];
    labels := [];
    for i := 0 to |sorted|
      invariant Daily(labels, acc) == Grouped(DayKeyOf(dateOf), sorted[..i])
    {
      var entry := sorted[i];
      var dateKey := FormatDate(dateOf(entry.scrapedAt));
      GroupedPrefixStep(DayKeyOf(dateOf), sorted, i);
      assert DayKeyOf(dateOf)(entry) == dateKey;
      if dateKey !in acc || entry.price < acc[dateKey].price {
        if dateKey !in acc {
          labels := labels + [dateKey];
        }
        acc := acc[dateKey := entry];
      }
    }
    assert sorted[..|sorted|] == sorted;
    data := seq(|labels|, j requires 0 <= j < |labels| => acc[labels[j]].price);
  }

  /** The chart of a fetched history: grouped from the sorted copy. */
  method PriceChart(dateOf: int -> CalendarDate, history: seq<HistoryEntry>)
    returns (labels: seq<string>, data: seq<real>)
    ensures labels == Grouped(DayKeyOf(dateOf), SortedHistory(history)).labels
    ensures |data| == |labels|
    ensures forall j | 0 <= j < |labels| ::
              data[j] == Grouped(DayKeyOf(dateOf), SortedHistory(history)).kept[labels[j]].price
    ensures |data| > 0 <==> |history| > 0
  {
    var sortedHistory := SortedHistory(history);
    labels, data := DailyPrices(dateOf, sortedHistory);
  }
}
