/**
 * The chart data of the spending dashboard
 * (mobile/src/screens/dashboard/DashboardScreen.tsx): the pie of the first
 * categories, coloured from a fixed palette, the bar chart of the latest
 * trend periods, and the 30-day query window. The analytics figures come from
 * the server; here they are inputs.
 */
module Dashboard {
  import opened Wrappers
  import opened JsText
  import WatchCard

  /** `getColorForIndex`'s eight colours. */
  const Palette: seq<string> :=
    ["#007AFF", "#34C759", "#FF9500", "#FF3B30", "#5856D6", "#FF2D55", "#5AC8FA", "#FFCC00"]

  /** The palette colour for a (non-negative) index, cycling every eight. */
  function ColorForIndex(index: nat): (c: string)
    ensures c in Palette
  {
    Palette[index % |Palette|]
  }

  /** The colours cycle with period 8, starting from "#007AFF". */
  lemma ColorCycle(index: nat)
    ensures ColorForIndex(index + 8) == ColorForIndex(index)
    ensures ColorForIndex(0) == "#007AFF"
  {
    assert (index + 8) % 8 == index % 8;
  }

  /** One category's spending as the server reports it. */
  datatype CategorySpend = CategorySpend(category: string, totalSpent: real)

  datatype PieSlice = PieSlice(name: string, amount: real, color: string)

  function Min(a: int, b: int): int {
    if a <= b then a else b
  }

  /** The pie: the first five categories in order, the i-th coloured by index i. */
  function PieData(categories: seq<CategorySpend>): (pie: seq<PieSlice>)
    ensures |pie| == Min(5, |categories|)
    ensures forall i | 0 <= i < |pie| ::
              && pie[i].name == categories[i].category
              && pie[i].amount == categories[i].totalSpent
              && pie[i].color == ColorForIndex(i)
  {
    var first := categories[..Min(5, |categories|)];
    seq(|first|, i requires 0 <= i < |first| =>
      PieSlice(first[i].category, first[i].totalSpent, ColorForIndex(i)))
  }

  /** The pie's slices all have different colours. */
  lemma PieColorsDistinct(categories: seq<CategorySpend>)
    ensures forall i, j | 0 <= i < j < |PieData(categories)| ::
              PieData(categories)[i].color != PieData(categories)[j].color
  {
    var pie := PieData(categories);
    forall i, j | 0 <= i < j < |pie|
      ensures pie[i].color != pie[j].color
    {
      assert pie[i].color == Palette[i] && pie[j].color == Palette[j];
      PaletteDistinct(i, j);
    }
  }

  /** The first five palette colours differ pairwise. */
  lemma PaletteDistinct(i: nat, j: nat)
    requires i < j < 5
    ensures Palette[i] != Palette[j]
  {
    var k := if i == 2 && j == 3 then 3 else 1;
    assert Palette[i][k] != Palette[j][k];
  }

  /** One trend period as the server reports it, e.g. a period "2024-W07". */
  datatype Trend = Trend(period: string, totalSpent: real)

  /** `slice(-7)`: the last (at most) seven elements. */
  function LastSeven<T>(s: seq<T>): (r: seq<T>)
    ensures |r| == Min(7, |s|)
    ensures r == s[|s| - |r|..]
  {
    if |s| <= 7 then s else s[|s| - 7..]
  }

  /** `period.split('-').pop() || ''`: the text after the last '-', or all of it. */
  function PeriodLabel(period: string): (segment: string)
    ensures '-' !in segment
    ensures |segment| <= |period| && period[|period| - |segment|..] == segment
    ensures |segment| < |period| ==> period[|period| - |segment| - 1] == '-'
  {
    var parts := SplitOn(period, '-');
    SplitPiecesAvoidSeparator(period, '-');
    LastPieceIsSuffix(period, '-');
    parts[|parts| - 1]
  }

  /** The last piece of a split ends the string and is preceded by the separator, if anything. */
  lemma LastPieceIsSuffix(s: string, sep: char)
    ensures var parts := SplitOn(s, sep);
            var last := parts[|parts| - 1];
            && |last| <= |s| && s[|s| - |last|..] == last
            && (|last| < |s| ==> s[|s| - |last| - 1] == sep)
  {
    var parts := SplitOn(s, sep);
    JoinSplit(s, sep);
    if |parts| >= 2 {
      JoinLast(parts, [sep]);
      var front := JoinWith(parts[..|parts| - 1], [sep]);
      assert s == front + [sep] + parts[|parts| - 1];
    }
  }

  /** Joining ends with the separator and the last part. */
  lemma {:induction false} JoinLast(parts: seq<string>, sep: string)
    requires |parts| >= 2
    ensures JoinWith(parts, sep) == JoinWith(parts[..|parts| - 1], sep) + sep + parts[|parts| - 1]
    decreases |parts|
  {
    var n := |parts|;
    if n > 2 {
      JoinLast(parts[1..], sep);
      assert parts[1..][..n - 2] == parts[..n - 1][1..];
      assert parts[1..][n - 2] == parts[n - 1];
    } else {
      assert parts[1..] == [parts[1]];
      assert parts[..1] == [parts[0]];
    }
  }

  datatype BarChart = BarChart(labels: seq<string>, data: seq<real>)

  /**
   * The bar chart: the last seven trends in order, labelled by their period's
   * last segment; without trend data, no labels and the single value 0.
   */
  function BarData(trends: Option<seq<Trend>>): (bar: BarChart)
    ensures trends.None? ==> bar == BarChart([], [0.0])
    ensures trends.Some? ==>
              var n, m := |trends.value|, Min(7, |trends.value|);
              && |bar.labels| == m && |bar.data| == m
              && forall i | 0 <= i < m ::
                   && bar.labels[i] == PeriodLabel(trends.value[n - m + i].period)
                   && bar.data[i] == trends.value[n - m + i].totalSpent
  {
    match trends
    case None => BarChart([], [0.0])
    case Some(t) =>
      var last := LastSeven(t);
      BarChart(seq(|last|, i requires 0 <= i < |last| => PeriodLabel(last[i].period)),
               seq(|last|, i requires 0 <= i < |last| => last[i].totalSpent))
  }

  /** The dashboard's query window: from 30 days before `now` up to `now`, in milliseconds. */
  function QueryWindow(now: int): (window: (int, int))
    ensures window.1 == now
    ensures window.1 - window.0 == 30 * WatchCard.MsPerDay
  {
    (now - 30 * WatchCard.MsPerDay, now)
  }
}
