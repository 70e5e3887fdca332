/**
 * The figures the app shows on a price-watch card
 * (mobile/src/screens/priceWatch/PriceWatchListScreen.tsx) and again on the
 * watch's history screen: savings against the best price found, its
 * percentage, the days left before the watch expires, and which section the
 * card shows. Times are milliseconds; the current time is an input.
 */
module WatchCard {
  import opened Wrappers
  import opened PriceWatches

  const MsPerDay := 1000 * 60 * 60 * 24

  /** What was saved: nothing until a best price is known. */
  function CardSavings(originalPrice: real, best: Option<BestPrice>): (s: real)
    ensures best.None? ==> s == 0.0
    ensures best.Some? ==> s == Savings(originalPrice, best.value.price)
    ensures s > 0.0 <==> best.Some? && best.value.price < originalPrice
  {
    if best.Some? then Savings(originalPrice, best.value.price) else 0.0
  }

  /** The saving as a percentage of the price paid: 0 until a best price is known. */
  function CardPercent(originalPrice: real, best: Option<BestPrice>): (p: Percent)
    ensures best.None? ==> p == Finite(0.0)
    ensures best.Some? ==> p == SavingsPercent(CardSavings(originalPrice, best), originalPrice)
  {
    if best.Some? then SavingsPercent(CardSavings(originalPrice, best), originalPrice) else Finite(0.0)
  }

  /**
   * `Math.ceil((expiresAt - now) / day)`: the least whole number of days that
   * covers the remaining time (zero or negative once the watch has expired).
   */
  function DaysLeft(expiresAt: int, now: int): (d: int)
    ensures d * MsPerDay >= expiresAt - now
    ensures (d - 1) * MsPerDay < expiresAt - now
  {
    -((now - expiresAt) / MsPerDay)
  }

  /** Any count of days bracketing the remaining time the same way is the one `DaysLeft` gives. */
  lemma DaysLeftUnique(expiresAt: int, now: int, d: int)
    requires d * MsPerDay >= expiresAt - now > (d - 1) * MsPerDay
    ensures DaysLeft(expiresAt, now) == d
  {
  }

  /** The card warns when fewer than seven days are left. */
  predicate ShowsWarning(daysLeft: int) {
    daysLeft < 7
  }

  /** The warning shows exactly when at most six days' worth of milliseconds remain. */
  lemma WarningIffWithinSixDays(expiresAt: int, now: int)
    ensures ShowsWarning(DaysLeft(expiresAt, now)) <==> expiresAt - now <= 6 * MsPerDay
  {
    var d := DaysLeft(expiresAt, now);
    if d <= 6 {
      assert d * MsPerDay <= 6 * MsPerDay;
    } else {
      assert (d - 1) * MsPerDay >= 6 * MsPerDay;
    }
  }

  /** The price part of a card: the best price with its savings, or a placeholder. */
  datatype PriceSection =
    | BestPriceSection(price: real, store: string, savings: real, percent: Percent)
    | CheckingPrices

  function CardPriceSection(originalPrice: real, best: Option<BestPrice>): (r: PriceSection)
    ensures r.BestPriceSection? <==> best.Some?
    ensures r.BestPriceSection? ==>
              && r.price == best.value.price
              && r.store == best.value.store
              && r.savings == originalPrice - best.value.price
              && r.percent == SavingsPercent(r.savings, originalPrice)
  {
    if best.Some?
    then BestPriceSection(best.value.price, best.value.store,
                          CardSavings(originalPrice, best), CardPercent(originalPrice, best))
    else CheckingPrices
  }
}
