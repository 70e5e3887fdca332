/**
 * The mobile app's server address and endpoint paths
 * (mobile/src/config/api.ts). The environment variable is an input.
 */
module ApiConfig {
  import opened Wrappers
  import opened JsText

  const DefaultApiUrl := "http://152.70.114.100:3000/api/v1"

  /** `process.env.API_URL || default`: an unset or empty variable falls back. */
  function ApiUrl(configured: Option<string>): (url: string)
    ensures configured.Some? && configured.value != [] ==> url == configured.value
    ensures configured.None? || configured.value == [] ==> url == DefaultApiUrl
    ensures url != []
  {
    OrElse(configured, DefaultApiUrl)
  }

  const ReceiptsPath := "/receipts"
  const PriceWatchPath := "/price-watch"
  const PriceWatchAlertsPath := "/price-watch/alerts"
  const PriceWatchSavingsPath := "/price-watch/savings"

  function ReceiptById(id: string): (path: string)
    ensures path == ReceiptsPath + "/" + id
  {
    "/receipts/" + id
  }

  function PriceWatchById(id: string): (path: string)
    ensures path == PriceWatchPath + "/" + id
  {
    "/price-watch/" + id
  }

  function PriceWatchHistory(id: string): (path: string)
    ensures path == PriceWatchById(id) + "/history"
  {
    "/price-watch/" + id + "/history"
  }

  function PriceWatchThresholds(id: string): (path: string)
    ensures path == PriceWatchById(id) + "/thresholds"
  {
    "/price-watch/" + id + "/thresholds"
  }

  /** A fixed prefix followed by the id: the id is what follows the prefix. */
  lemma PrefixCancels(prefix: string, a: string, b: string)
    requires prefix + a == prefix + b
    ensures a == b
  {
    assert a == (prefix + a)[|prefix|..];
    assert b == (prefix + b)[|prefix|..];
  }

  /** The id followed by a fixed suffix: the id is what precedes the suffix. */
  lemma SuffixCancels(a: string, b: string, suffix: string)
    requires a + suffix == b + suffix
    ensures a == b
  {
    assert a == (a + suffix)[..|a|];
    assert b == (b + suffix)[..|b|];
  }

  /** Distinct ids give distinct paths, for every builder. */
  lemma BuildersInjective(a: string, b: string)
    requires a != b
    ensures ReceiptById(a) != ReceiptById(b)
    ensures PriceWatchById(a) != PriceWatchById(b)
    ensures PriceWatchHistory(a) != PriceWatchHistory(b)
    ensures PriceWatchThresholds(a) != PriceWatchThresholds(b)
  {
    if ReceiptById(a) == ReceiptById(b) {
      PrefixCancels("/receipts/", a, b);
    }
    if PriceWatchById(a) == PriceWatchById(b) {
      PrefixCancels("/price-watch/", a, b);
    }
    if PriceWatchHistory(a) == PriceWatchHistory(b) {
      SuffixCancels(PriceWatchById(a), PriceWatchById(b), "/history");
      PrefixCancels("/price-watch/", a, b);
    }
    if PriceWatchThresholds(a) == PriceWatchThresholds(b) {
      SuffixCancels(PriceWatchById(a), PriceWatchById(b), "/thresholds");
      PrefixCancels("/price-watch/", a, b);
    }
  }

  /**
   * As strings, the fixed alerts and savings paths are the by-id paths of the
   * ids "alerts" and "savings".  The server tells them apart by the request
   * method: they are read with GET, and no GET route takes a watch id alone.
   */
  lemma FixedPathsAreByIdPaths()
    ensures PriceWatchById("alerts") == PriceWatchAlertsPath
    ensures PriceWatchById("savings") == PriceWatchSavingsPath
  {
  }
}
