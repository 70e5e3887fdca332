/**
 * The decision rules of the scheduled price check: whether a user is inside
 * their quiet hours, whether a drop is worth an alert, and how one round of
 * scraped prices updates a watch's best price.  The scraped prices, the
 * user's alert settings, the current instant and the local minute of the day
 * are inputs.
 */
module PriceCheckService {
  import opened Wrappers
  import opened JsText
  import opened PriceWatches

  /** A nightly window during which no alert is pushed, as "HH:MM" strings. */
  datatype QuietHours = QuietHours(enabled: bool, start: string, end: string)

  /** The user's `priceAlerts` settings as far as the checker reads them. */
  datatype AlertSettings = AlertSettings(enabled: bool, quietHours: Option<QuietHours>)

  /** One price a retailer search returned. */
  datatype ScrapedPrice = ScrapedPrice(store: string, price: real, url: string)

  const MinutesPerDay := 24 * 60

  // ---------------------------------------------------------------------------
  // Quiet hours
  // ---------------------------------------------------------------------------

  /**
   * `hh * 60 + mm` after `split(':').map(Number)`: `None` stands for NaN, which
   * a missing minute part or a part `Number` cannot read produces.  Only the
   * first two parts are read.
   */
  function ClockMinutes(hhmm: string): (r: Option<int>)
    ensures |SplitOn(hhmm, ':')| < 2 ==> r.None?
  {
    MinutesOfParts(SplitOn(hhmm, ':'))
  }

  /** Hours and minutes as minutes since midnight. */
  function MinuteOfDay(hours: int, minutes: int): int {
    hours * 60 + minutes
  }

  /** The first two parts read by `Number` as hours and minutes; fewer parts give NaN. */
  function MinutesOfParts(parts: seq<string>): Option<int> {
    if |parts| < 2 then None
    else
      var hours, minutes := NumberOfInteger(parts[0]), NumberOfInteger(parts[1]);
      if hours.Some? && minutes.Some? then Some(MinuteOfDay(hours.value, minutes.value)) else None
  }

  /** Whether the local minute `now` falls in the quiet window. */
  function IsQuietHours(quietHours: Option<QuietHours>, now: int): (quiet: bool)
    ensures quiet ==> quietHours.Some? && quietHours.value.enabled
  {
    if quietHours.None? || !quietHours.value.enabled then false
    else
      match (ClockMinutes(quietHours.value.start), ClockMinutes(quietHours.value.end))
      case (Some(s), Some(e)) => InWindow(s, e, now)
      case _ => false
  }

  /** The window test on minutes: one past midnight when start is after end. */
  predicate InWindow(s: int, e: int, now: int) {
    if s > e then now >= s || now <= e
    else now >= s && now <= e
  }

  /**
   * For clock times within one day, the window is the arc of the 24-hour
   * clock from start to end, both ends included: walking forward from start,
   * `now` comes no later than end.  This covers windows past midnight and
   * ordinary ones alike.
   */
  lemma WindowIsClockArc(s: int, e: int, now: int)
    requires 0 <= s < MinutesPerDay && 0 <= e < MinutesPerDay && 0 <= now < MinutesPerDay
    ensures InWindow(s, e, now) <==> (now - s) % MinutesPerDay <= (e - s) % MinutesPerDay
  {
    if now < s {
      assert (now - s) % MinutesPerDay == now - s + MinutesPerDay;
    } else {
      assert (now - s) % MinutesPerDay == now - s;
    }
    if e < s {
      assert (e - s) % MinutesPerDay == e - s + MinutesPerDay;
    } else {
      assert (e - s) % MinutesPerDay == e - s;
    }
  }

  /** An enabled window with readable times is quiet exactly inside it. */
  lemma QuietHoursWindow(q: QuietHours, s: int, e: int, now: int)
    requires q.enabled && ClockMinutes(q.start) == Some(s) && ClockMinutes(q.end) == Some(e)
    ensures IsQuietHours(Some(q), now) == InWindow(s, e, now)
  {
  }

  /** A window past midnight is quiet exactly outside the open interval from end to start. */
  lemma OvernightWindow(q: QuietHours, s: int, e: int, now: int)
    requires q.enabled && ClockMinutes(q.start) == Some(s) && ClockMinutes(q.end) == Some(e) && s > e
    ensures IsQuietHours(Some(q), now) <==> !(e < now < s)
  {
  }

  /** Digits on both sides of a colon are read as hours and minutes. */
  lemma ClockMinutesOfDigits(h: string, m: string)
    requires AllDigits(h) && AllDigits(m)
    ensures var r := ClockMinutes(h + [':'] + m);
      r.Some? && r.value == DigitsValue(h) * 60 + DigitsValue(m)
  {
    assert ':' !in h && ':' !in m by {
      assert forall i | 0 <= i < |h| :: IsDigit(h[i]);
      assert forall i | 0 <= i < |m| :: IsDigit(m[i]);
    }
    SplitAtColon(h, m);
    DigitsNumber(h);
    DigitsNumber(m);
    ClockMinutesOfParts(h + [':'] + m, h, m, DigitsValue(h), DigitsValue(m));
  }

  /** Splitting two colon-free strings joined by a colon gives the two strings. */
  lemma SplitAtColon(h: string, m: string)
    requires ':' !in h && ':' !in m
    ensures SplitOn(h + [':'] + m, ':') == [h, m]
  {
    assert JoinWith([h, m], [':']) == h + [':'] + m by {
      assert JoinWith([h, m][1..], [':']) == m;
    }
    SplitJoin([h, m], ':');
  }

  /** A signed hour is read with its sign, so "+22:00" is 22:00 and "-1:30" is 90 minutes before midnight. */
  lemma ClockMinutesOfSignedHour(sign: char, h: string, m: string)
    requires (sign == '+' || sign == '-') && h != [] && AllDigits(h) && AllDigits(m)
    ensures var r := ClockMinutes([sign] + h + [':'] + m);
      r.Some? && r.value == SignedValue(sign, DigitsValue(h)) * 60 + DigitsValue(m)
  {
    var sh := [sign] + h;
    assert ':' !in sh && ':' !in m by {
      assert forall i | 0 <= i < |sh| :: sh[i] == sign || IsDigit(sh[i]);
      assert forall i | 0 <= i < |m| :: IsDigit(m[i]);
    }
    SplitAtColon(sh, m);
    SignedNumber(sign, h);
    DigitsNumber(m);
    ClockMinutesOfParts(sh + [':'] + m, sh, m,
      SignedValue(sign, DigitsValue(h)), DigitsValue(m));
  }

  /** `Number` reads a sign followed by digits as the signed value. */
  lemma SignedNumber(sign: char, d: string)
    requires (sign == '+' || sign == '-') && d != [] && AllDigits(d)
    ensures NumberOfInteger([sign] + d) == Some(SignedValue(sign, DigitsValue(d)))
  {
    var t := [sign] + d;
    assert t[|t| - 1] == d[|d| - 1];
    TrimUntouched(t);
    assert !IsDigit(t[0]);
    assert t[1..] == d;
  }

  /** Two readable parts give hours times sixty plus minutes. */
  lemma ClockMinutesOfParts(hhmm: string, h: string, m: string, hours: int, minutes: int)
    requires SplitOn(hhmm, ':') == [h, m] && NumberOfInteger(h) == Some(hours) && NumberOfInteger(m) == Some(minutes)
    ensures ClockMinutes(hhmm) == Some(MinuteOfDay(hours, minutes))
  {
    MinutesOfReadParts([h, m], hours, minutes);
  }

  /** Two parts `Number` reads give hours times sixty plus minutes. */
  lemma MinutesOfReadParts(parts: seq<string>, hours: int, minutes: int)
    requires |parts| == 2 && NumberOfInteger(parts[0]) == Some(hours) && NumberOfInteger(parts[1]) == Some(minutes)
    ensures MinutesOfParts(parts) == Some(MinuteOfDay(hours, minutes))
  {
  }

  /** `Number` reads a digit string as its value. */
  lemma DigitsNumber(d: string)
    requires AllDigits(d)
    ensures NumberOfInteger(d) == Some(DigitsValue(d))
  {
    if d != [] {
      assert !IsSpace(d[0]) && !IsSpace(d[|d| - 1]);
      TrimUntouched(d);
    } else {
      assert TrimStart(d) == d;
      assert TrimEnd(d) == d;
    }
  }

  // ---------------------------------------------------------------------------
  // Alert decision
  // ---------------------------------------------------------------------------

  /** Alerts are on: the user has alert settings with `enabled` set. */
  predicate AlertsEnabled(alerts: Option<AlertSettings>) {
    alerts.Some? && alerts.value.enabled
  }

  /** The settings' quiet window, if there are settings. */
  function QuietWindow(alerts: Option<AlertSettings>): Option<QuietHours> {
    if alerts.Some? then alerts.value.quietHours else None
  }

  /** The threshold cascade deciding whether a price drop is pushed to the user. */
  function ShouldSendAlert(alerts: Option<AlertSettings>, thresholds: Thresholds, savings: real,
                           savingsPercent: Percent, now: int): (send: bool)
    ensures send ==> AlertsEnabled(alerts) && !IsQuietHours(QuietWindow(alerts), now) && savings > 0.0
  {
    if !AlertsEnabled(alerts) then false
    else if IsQuietHours(QuietWindow(alerts), now) then false
    else if savings <= 0.0 then false
    else if thresholds.anyDrop then true
    else if thresholds.percent10 && AtLeast(savingsPercent, 10.0) then true
    else if thresholds.percent20 && AtLeast(savingsPercent, 20.0) then true
    else if thresholds.percent30 && AtLeast(savingsPercent, 30.0) then true
    else false
  }

  /** Some threshold the user set is met by the drop. */
  predicate ThresholdMet(thresholds: Thresholds, savingsPercent: Percent) {
    thresholds.anyDrop
    || (thresholds.percent10 && AtLeast(savingsPercent, 10.0))
    || (thresholds.percent20 && AtLeast(savingsPercent, 20.0))
    || (thresholds.percent30 && AtLeast(savingsPercent, 30.0))
  }

  /** An alert goes out exactly when alerts are on, it is not quiet, the price
      dropped, and one of the chosen thresholds is met. */
  lemma ShouldSendAlertIff(alerts: Option<AlertSettings>, thresholds: Thresholds, savings: real,
                           savingsPercent: Percent, now: int)
    ensures ShouldSendAlert(alerts, thresholds, savings, savingsPercent, now)
        <==> AlertsEnabled(alerts) && !IsQuietHours(QuietWindow(alerts), now) && savings > 0.0
             && ThresholdMet(thresholds, savingsPercent)
  {
  }

  /** A bigger drop never silences an alert the smaller drop would have sent. */
  lemma AlertMonotone(alerts: Option<AlertSettings>, thresholds: Thresholds, original: real,
                      best: real, lower: real, now: int)
    requires original > 0.0 && lower <= best
    requires ShouldSendAlert(alerts, thresholds, Savings(original, best),
                             SavingsPercent(Savings(original, best), original), now)
    ensures ShouldSendAlert(alerts, thresholds, Savings(original, lower),
                            SavingsPercent(Savings(original, lower), original), now)
  {
    PercentThreshold(original, best, 10.0);
    PercentThreshold(original, lower, 10.0);
    PercentThreshold(original, best, 20.0);
    PercentThreshold(original, lower, 20.0);
    PercentThreshold(original, best, 30.0);
    PercentThreshold(original, lower, 30.0);
  }

  /** With the default thresholds an alert needs a drop of at least 10 percent. */
  lemma DefaultThresholdsNeedTenPercent(alerts: Option<AlertSettings>, original: real, best: real, now: int)
    requires original > 0.0 && AlertsEnabled(alerts) && !IsQuietHours(QuietWindow(alerts), now)
    ensures ShouldSendAlert(alerts, DefaultThresholds, Savings(original, best),
                            SavingsPercent(Savings(original, best), original), now)
        <==> 10.0 * best <= 9.0 * original
  {
    PercentThreshold(original, best, 10.0);
    PercentThreshold(original, best, 20.0);
    PercentThreshold(original, best, 30.0);
  }

  // ---------------------------------------------------------------------------
  // Best price
  // ---------------------------------------------------------------------------

  /** `Math.min(...prices.map(p => p.price))` on a non-empty list. */
  function MinPrice(prices: seq<ScrapedPrice>): (m: real)
    requires |prices| >= 1
    ensures exists i :: 0 <= i < |prices| && prices[i].price == m
    ensures forall i :: 0 <= i < |prices| ==> m <= prices[i].price
  {
    if |prices| == 1 then prices[0].price
    else
      var rest := MinPrice(prices[1..]);
      assert forall i :: 1 <= i < |prices| ==> prices[i] == prices[1..][i - 1];
      if prices[0].price <= rest then prices[0].price else rest
  }

  /** `prices.find(p => p.price === price)` for a price that occurs: the first such entry. */
  function FirstAtPrice(prices: seq<ScrapedPrice>, price: real): (i: nat)
    requires exists k :: 0 <= k < |prices| && prices[k].price == price
    ensures i < |prices| && prices[i].price == price
    ensures forall j :: 0 <= j < i ==> prices[j].price != price
  {
    if prices[0].price == price then 0
    else
      assert exists k :: 0 <= k < |prices[1..]| && prices[1..][k].price == price by {
        var k :| 0 <= k < |prices| && prices[k].price == price;
        assert prices[1..][k - 1] == prices[k];
      }
      1 + FirstAtPrice(prices[1..], price)
  }

  /**
   * The best price after a round that found `prices`: the cheapest scraped
   * price with the store and link of its first occurrence, dated `now`, when
   * there was none before or it is strictly cheaper; otherwise the old one.
   */
  function UpdatedBest(current: Option<BestPrice>, prices: seq<ScrapedPrice>, now: int): (b: Option<BestPrice>)
    requires |prices| >= 1
    ensures b.Some?
    ensures forall k :: 0 <= k < |prices| ==> b.value.price <= prices[k].price
    ensures current.Some? ==> b.value.price <= current.value.price
    ensures b == current || exists k :: 0 <= k < |prices| && b.value == BestPrice(prices[k].price, prices[k].store, now, prices[k].url)
  {
    var best := MinPrice(prices);
    if current.None? || best < current.value.price then
      var i := FirstAtPrice(prices, best);
      Some(BestPrice(best, prices[i].store, now, prices[i].url))
    else current
  }

  /** The recorded store and link come from the first entry with the lowest price. */
  lemma UpdatedBestSource(current: Option<BestPrice>, prices: seq<ScrapedPrice>, now: int, i: nat)
    requires i < |prices| && UpdatedBest(current, prices, now) != current
    requires forall k :: 0 <= k < |prices| ==> prices[i].price <= prices[k].price
    requires forall k :: 0 <= k < i ==> prices[k].price != prices[i].price
    ensures UpdatedBest(current, prices, now) == Some(BestPrice(prices[i].price, prices[i].store, now, prices[i].url))
  {
    var best := MinPrice(prices);
    assert best == prices[i].price;
    var j := FirstAtPrice(prices, best);
    assert j == i;
  }

  /** Rechecking with the same prices changes the best price no further than its date. */
  lemma UpdatedBestSettles(current: Option<BestPrice>, prices: seq<ScrapedPrice>, now: int, later: int)
    requires |prices| >= 1
    ensures UpdatedBest(UpdatedBest(current, prices, now), prices, later) == UpdatedBest(current, prices, now)
  {
  }

  /**
   * The update as the daily check runs it.  The watches are loaded as full
   * documents, and `bestPriceFound` is a nested path, which such a document
   * always returns as an object, so `!watch.bestPriceFound` is never true.
   * With nothing stored its `price` is undefined, and no number is less than
   * undefined: a watch without a best price keeps none.
   */
  function UpdatedBestAsWritten(current: Option<BestPrice>, prices: seq<ScrapedPrice>, now: int): (b: Option<BestPrice>)
    requires |prices| >= 1
    ensures current.None? ==> b.None?
    ensures current.Some? ==> b == UpdatedBest(current, prices, now)
  {
    var best := MinPrice(prices);
    if current.Some? && best < current.value.price then
      var i := FirstAtPrice(prices, best);
      Some(BestPrice(best, prices[i].store, now, prices[i].url))
    else current
  }

  /** The best price after daily checks that found `rounds` of prices, in order, as written. */
  function BestAfterChecksAsWritten(current: Option<BestPrice>, rounds: seq<seq<ScrapedPrice>>, now: int): Option<BestPrice>
    requires forall r :: 0 <= r < |rounds| ==> |rounds[r]| >= 1
    decreases |rounds|
  {
    if rounds == [] then current
    else
      assert forall r :: 0 <= r < |rounds[1..]| ==> rounds[1..][r] == rounds[r + 1];
      BestAfterChecksAsWritten(UpdatedBestAsWritten(current, rounds[0], now), rounds[1..], now)
  }

  /**
   * As written, a watch created without a best price never gets one, however
   * many checks find prices, while the intended update records the cheapest
   * price found by the first of them.
   */
  lemma {:induction false} BestPriceNeverRecorded(rounds: seq<seq<ScrapedPrice>>, now: int)
    requires forall r :: 0 <= r < |rounds| ==> |rounds[r]| >= 1
    ensures BestAfterChecksAsWritten(None, rounds, now) == None
    ensures rounds != [] ==> UpdatedBest(None, rounds[0], now).Some?
    ensures rounds != [] ==> UpdatedBest(None, rounds[0], now).value.price == MinPrice(rounds[0])
    decreases |rounds|
  {
    if rounds != [] {
      assert forall r :: 0 <= r < |rounds[1..]| ==> rounds[1..][r] == rounds[r + 1];
      BestPriceNeverRecorded(rounds[1..], now);
    }
  }

  // ---------------------------------------------------------------------------
  // One check of one watch
  // ---------------------------------------------------------------------------

  /**
   * `checkPriceForWatch` after the prices are known.  `None` is the early
   * return when no price was found; otherwise the result says whether an alert
   * is due.  Only the best price and the last check time are written.
   */
  method CheckPriceForWatch(watch: WatchDocument, priceData: seq<ScrapedPrice>, alerts: Option<AlertSettings>,
                            now: int, localMinute: int) returns (alertSent: Option<bool>)
    modifies watch`bestPriceFound, watch`lastCheckedAt
    ensures watch.lastCheckedAt == Some(now)
    ensures priceData == [] ==> alertSent.None? && watch.bestPriceFound == old(watch.bestPriceFound)
    ensures priceData != [] ==> watch.bestPriceFound == UpdatedBest(old(watch.bestPriceFound), priceData, now)
    ensures priceData != [] ==>
      var savings := Savings(watch.originalPrice, MinPrice(priceData));
      alertSent == Some(ShouldSendAlert(alerts, watch.thresholds, savings,
                                        SavingsPercent(savings, watch.originalPrice), localMinute))
  {
    if |priceData| == 0 {
      watch.lastCheckedAt := Some(now);
      return None;
    }
    var bestPrice := MinPrice(priceData);
    var savings := watch.originalPrice - bestPrice;
    var savingsPercent := SavingsPercent(savings, watch.originalPrice);
    if watch.bestPriceFound.None? || bestPrice < watch.bestPriceFound.value.price {
      var i := FirstAtPrice(priceData, bestPrice);
      watch.bestPriceFound := Some(BestPrice(bestPrice, priceData[i].store, now, priceData[i].url));
    }
    watch.lastCheckedAt := Some(now);
    var send := ShouldSendAlert(alerts, watch.thresholds, savings, savingsPercent, localMinute);
    return Some(send);
  }
}
