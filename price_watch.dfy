/**
 * The price-watch record the server keeps for a tracked purchase, its alert
 * thresholds, the best price found so far, and the savings arithmetic shared by
 * the price checker, the watch controller and the price-watch screens.
 * Money is an exact decimal (`real`); times are milliseconds since the epoch.
 */
module PriceWatches {
  import opened Wrappers

  /** Which drops below the purchase price the user wants to hear about. */
  datatype Thresholds = Thresholds(anyDrop: bool, percent10: bool, percent20: bool, percent30: bool)

  /** Thresholds used when the user has none: every percentage step, not any drop. */
  const DefaultThresholds := Thresholds(false, true, true, true)

  /** Thirty days in milliseconds: how long a new watch lives. */
  const WatchLifetime := 30 * 24 * 60 * 60 * 1000

  datatype BestPrice = BestPrice(price: real, store: string, date: int, url: string)

  /** A stored watch as plain data (what a lean query returns). */
  datatype PriceWatch = PriceWatch(
    userId: string,
    receiptId: Option<string>,
    itemName: string,
    normalizedName: string,
    category: string,
    originalPrice: real,
    storeName: string,
    purchaseDate: int,
    expiresAt: int,
    thresholds: Thresholds,
    isActive: bool,
    lastCheckedAt: Option<int>,
    bestPriceFound: Option<BestPrice>)

  /**
   * A number `savings / original * 100` can give in JavaScript when the price
   * is not negative: a zero original price divides to an infinity, or to NaN
   * when the savings are zero too.
   */
  datatype Percent = Finite(value: real) | Infinite(positive: bool) | NotANumber

  function Savings(original: real, best: real): (s: real)
    ensures s > 0.0 <==> best < original
  {
    original - best
  }

  /** `(savings / original) * 100` with IEEE division by zero. */
  function SavingsPercent(savings: real, original: real): (p: Percent)
    ensures p.Finite? <==> original != 0.0
    ensures p.Infinite? ==> p.positive == (savings > 0.0)
  {
    if original != 0.0 then Finite(savings / original * 100.0)
    else if savings > 0.0 then Infinite(true)
    else if savings < 0.0 then Infinite(false)
    else NotANumber
  }

  /** `percent >= t`: NaN compares false with everything. */
  predicate AtLeast(p: Percent, t: real) {
    match p
    case Finite(v) => v >= t
    case Infinite(positive) => positive
    case NotANumber => false
  }

  /** With a positive purchase price, reaching `t` percent means the best price
      is at most `100 - t` percent of the purchase price. */
  lemma PercentThreshold(original: real, best: real, t: real)
    requires original > 0.0
    ensures AtLeast(SavingsPercent(Savings(original, best), original), t)
        <==> 100.0 * best <= (100.0 - t) * original
  {
    var q := (original - best) / original;
    assert q * original == original - best;
    assert q * 100.0 >= t <==> q * 100.0 * original >= t * original;
  }

  /** With a zero purchase price, every percentage is reached exactly when
      there are savings at all. */
  lemma PercentOfZeroPrice(savings: real, t: real)
    ensures AtLeast(SavingsPercent(savings, 0.0), t) <==> savings > 0.0
  {
  }

  /** A mongoose document for a watch: the identifying fields are fixed, and
      the thresholds, the active flag, the best price and the last check time
      are assigned in place by the controller and the price checker. */
  class WatchDocument {
    const userId: string
    const receiptId: Option<string>
    const itemName: string
    const normalizedName: string
    const category: string
    const originalPrice: real
    const storeName: string
    const purchaseDate: int
    const expiresAt: int
    var thresholds: Thresholds
    var isActive: bool
    var lastCheckedAt: Option<int>
    var bestPriceFound: Option<BestPrice>

    /** The document loaded from a stored record. */
    constructor (w: PriceWatch)
      ensures Snapshot() == w
    {
      userId := w.userId;
      receiptId := w.receiptId;
      itemName := w.itemName;
      normalizedName := w.normalizedName;
      category := w.category;
      originalPrice := w.originalPrice;
      storeName := w.storeName;
      purchaseDate := w.purchaseDate;
      expiresAt := w.expiresAt;
      thresholds := w.thresholds;
      isActive := w.isActive;
      lastCheckedAt := w.lastCheckedAt;
      bestPriceFound := w.bestPriceFound;
    }

    /** The document's current contents as a record. */
    function Snapshot(): PriceWatch
      reads this
    {
      PriceWatch(userId, receiptId, itemName, normalizedName, category, originalPrice, storeName,
        purchaseDate, expiresAt, thresholds, isActive, lastCheckedAt, bestPriceFound)
    }
  }
}
