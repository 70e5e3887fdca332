/**
 * The request rules of the price-watch controller: validating and defaulting
 * a manually created watch, merging a partial threshold update, deactivating
 * a watch, and the savings summary.  The authenticated user, the watch the
 * ownership query found (or `null`) and the current instant are inputs.
 */
module PriceWatchController {
  import opened Wrappers
  import opened JsText
  import opened PriceWatches
  import opened Http
  import opened StableSort

  // ---------------------------------------------------------------------------
  // Creating a watch by hand
  // ---------------------------------------------------------------------------

  /** The body of a creation request; absent fields are `None`. */
  datatype CreateRequest = CreateRequest(
    itemName: Option<string>,
    normalizedName: Option<string>,
    category: Option<string>,
    originalPrice: Option<real>,
    storeName: Option<string>,
    purchaseDate: Option<int>)

  /** A JavaScript-truthy string: present and not empty. */
  predicate TruthyText(s: Option<string>) {
    s.Some? && s.value != []
  }

  /** A JavaScript-truthy number: present and not zero. */
  predicate TruthyNumber(x: Option<real>) {
    x.Some? && x.value != 0.0
  }

  /** `itemName.toLowerCase().replace(/\s+/g, ' ').trim()`. */
  function DefaultNormalizedName(itemName: string): string {
    Trim(CollapseSpaces(LowerStr(itemName)))
  }

  /** `createPriceWatch` for a signed-in user whose alert thresholds, if any, are given. */
  function CreatePriceWatch(userId: string, userThresholds: Option<Thresholds>, req: CreateRequest, now: int)
    : (r: Reply<PriceWatch>)
    ensures r.Failure? <==> !TruthyText(req.itemName) || !TruthyNumber(req.originalPrice) || !TruthyText(req.storeName)
    ensures r.Failure? ==> r.code == 400
    ensures r.Success? ==> r.code == 201 && r.data.originalPrice != 0.0
  {
    if !TruthyText(req.itemName) || !TruthyNumber(req.originalPrice) || !TruthyText(req.storeName) then
      Failure(400, "Missing required fields: itemName, originalPrice, storeName")
    else
      var itemName := req.itemName.value;
      Success(201, PriceWatch(
        userId := userId,
        receiptId := None,
        itemName := itemName,
        normalizedName := OrElse(req.normalizedName, DefaultNormalizedName(itemName)),
        category := OrElse(req.category, "Other"),
        originalPrice := req.originalPrice.value,
        storeName := req.storeName.value,
        purchaseDate := if req.purchaseDate.Some? && req.purchaseDate.value != 0 then req.purchaseDate.value else now,
        expiresAt := now + WatchLifetime,
        thresholds := userThresholds.GetOr(DefaultThresholds),
        isActive := true,
        lastCheckedAt := None,
        bestPriceFound := None))
  }

  /** A created watch keeps the request's item, store and price, belongs to
      the user, has no receipt, is active, unchecked, and expires in 30 days. */
  lemma CreatedWatchRecord(userId: string, userThresholds: Option<Thresholds>, req: CreateRequest, now: int)
    requires TruthyText(req.itemName) && TruthyNumber(req.originalPrice) && TruthyText(req.storeName)
    ensures var r := CreatePriceWatch(userId, userThresholds, req, now);
      r.Success? && r.data.userId == userId && r.data.receiptId.None?
      && r.data.itemName == req.itemName.value && r.data.storeName == req.storeName.value
      && r.data.originalPrice == req.originalPrice.value
      && r.data.expiresAt == now + WatchLifetime
      && r.data.isActive && r.data.lastCheckedAt.None? && r.data.bestPriceFound.None?
  {
  }

  /** The fallbacks of a created watch: the user's thresholds or the default
      ones, the given or the derived normalised name, the given category or
      "Other", and the given purchase date or now. */
  lemma CreatedWatchDefaults(userId: string, userThresholds: Option<Thresholds>, req: CreateRequest, now: int)
    requires TruthyText(req.itemName) && TruthyNumber(req.originalPrice) && TruthyText(req.storeName)
    ensures var w := CreatePriceWatch(userId, userThresholds, req, now).data;
      && (userThresholds.Some? ==> w.thresholds == userThresholds.value)
      && (userThresholds.None? ==> w.thresholds == DefaultThresholds)
      && (TruthyText(req.normalizedName) ==> w.normalizedName == req.normalizedName.value)
      && (!TruthyText(req.normalizedName) ==> w.normalizedName == DefaultNormalizedName(req.itemName.value))
      && (TruthyText(req.category) ==> w.category == req.category.value)
      && (!TruthyText(req.category) ==> w.category == "Other")
      && (req.purchaseDate.Some? && req.purchaseDate.value != 0 ==> w.purchaseDate == req.purchaseDate.value)
      && (req.purchaseDate.None? || req.purchaseDate.value == 0 ==> w.purchaseDate == now)
  {
  }

  /** The watch schema declares `receiptId` required: a record without one fails validation. */
  predicate HasRequiredReceipt(w: PriceWatch) {
    w.receiptId.Some?
  }

  /**
   * `createPriceWatch` as written: the built record goes to `PriceWatch.create`,
   * whose schema validation is `validates`; a rejection is caught and answered
   * 500.
   */
  function CreatePriceWatchAsWritten(userId: string, userThresholds: Option<Thresholds>, req: CreateRequest, now: int,
                                     validates: PriceWatch -> bool)
    : (r: Reply<PriceWatch>)
    ensures r.Success? ==> r == CreatePriceWatch(userId, userThresholds, req, now) && validates(r.data)
    ensures r.Failure? ==> r.code == 400 || r.code == 500
    ensures r.Failure? && r.code == 400 <==>
              !TruthyText(req.itemName) || !TruthyNumber(req.originalPrice) || !TruthyText(req.storeName)
  {
    match CreatePriceWatch(userId, userThresholds, req, now)
    case Failure(code, message) => Failure(code, message)
    case Success(_, record) =>
      if validates(record) then Success(201, record)
      else Failure(500, "Failed to create price watch")
  }

  /**
   * Under the schema's required receipt id, a request that passes the field
   * check is answered 500: no manual creation succeeds, where the code means
   * the 201 of `CreatePriceWatch`.
   */
  lemma ManualCreationRejected(userId: string, userThresholds: Option<Thresholds>, req: CreateRequest, now: int)
    requires TruthyText(req.itemName) && TruthyNumber(req.originalPrice) && TruthyText(req.storeName)
    ensures CreatePriceWatchAsWritten(userId, userThresholds, req, now, HasRequiredReceipt)
            == Failure(500, "Failed to create price watch")
    ensures CreatePriceWatch(userId, userThresholds, req, now).Success?
    ensures CreatePriceWatch(userId, userThresholds, req, now).code == 201
  {
  }

  /** The shape of a name after the default normalisation. */
  predicate CanonicalName(n: string) {
    (forall i :: 0 <= i < |n| ==> !IsUpper(n[i]))
    && (n == [] || (!IsSpace(n[0]) && !IsSpace(n[|n| - 1])))
    && SingleSpaced(n)
  }

  /** The default normalised name has no capital letter, no white space at its
      ends and only single spaces between words. */
  lemma DefaultNameShape(itemName: string)
    ensures CanonicalName(DefaultNormalizedName(itemName))
  {
    var low := LowerStr(itemName);
    var c := CollapseSpaces(low);
    CollapseChars(low);
    TrimCollapsedSingleSpaced(low);
    var a := TrimSlice(c);
    var n := Trim(c);
    forall i | 0 <= i < |n|
      ensures !IsUpper(n[i])
    {
      assert n[i] == c[a + i];
      if n[i] != ' ' {
        var j :| 0 <= j < |low| && low[j] == n[i];
        assert low[j] == Lower(itemName[j]);
      }
    }
  }

  /** Normalising a default normalised name again changes nothing. */
  lemma DefaultNameIdempotent(itemName: string)
    ensures DefaultNormalizedName(DefaultNormalizedName(itemName)) == DefaultNormalizedName(itemName)
  {
    var n := DefaultNormalizedName(itemName);
    DefaultNameShape(itemName);
    assert LowerStr(n) == n;
    CollapseUntouched(n);
    if n != [] {
      TrimUntouched(n);
    } else {
      assert TrimStart(n) == n && TrimEnd(n) == n;
    }
  }

  // ---------------------------------------------------------------------------
  // Threshold update
  // ---------------------------------------------------------------------------

  /** The `thresholds` object of an update request: each flag may be left undefined. */
  datatype ThresholdsPatch = ThresholdsPatch(
    anyDrop: Option<bool>, percent10: Option<bool>, percent20: Option<bool>, percent30: Option<bool>)

  /** Each flag takes the request's value when it is defined and keeps the old one otherwise. */
  function MergeThresholds(current: Thresholds, patch: ThresholdsPatch): (t: Thresholds)
    ensures patch.anyDrop.Some? ==> t.anyDrop == patch.anyDrop.value
    ensures patch.anyDrop.None? ==> t.anyDrop == current.anyDrop
    ensures patch.percent10.Some? ==> t.percent10 == patch.percent10.value
    ensures patch.percent10.None? ==> t.percent10 == current.percent10
    ensures patch.percent20.Some? ==> t.percent20 == patch.percent20.value
    ensures patch.percent20.None? ==> t.percent20 == current.percent20
    ensures patch.percent30.Some? ==> t.percent30 == patch.percent30.value
    ensures patch.percent30.None? ==> t.percent30 == current.percent30
  {
    Thresholds(
      patch.anyDrop.GetOr(current.anyDrop),
      patch.percent10.GetOr(current.percent10),
      patch.percent20.GetOr(current.percent20),
      patch.percent30.GetOr(current.percent30))
  }

  /** A patch applied after another: the later one wins where both are defined. */
  function Then(first: ThresholdsPatch, second: ThresholdsPatch): ThresholdsPatch {
    ThresholdsPatch(
      if second.anyDrop.Some? then second.anyDrop else first.anyDrop,
      if second.percent10.Some? then second.percent10 else first.percent10,
      if second.percent20.Some? then second.percent20 else first.percent20,
      if second.percent30.Some? then second.percent30 else first.percent30)
  }

  /** An update that defines no flag keeps the thresholds. */
  lemma MergeEmpty(current: Thresholds)
    ensures MergeThresholds(current, ThresholdsPatch(None, None, None, None)) == current
  {
  }

  /** Repeating an update changes nothing more. */
  lemma MergeIdempotent(current: Thresholds, patch: ThresholdsPatch)
    ensures MergeThresholds(MergeThresholds(current, patch), patch) == MergeThresholds(current, patch)
  {
  }

  /** Two updates in a row are one update with the combined patch. */
  lemma MergeSequence(current: Thresholds, first: ThresholdsPatch, second: ThresholdsPatch)
    ensures MergeThresholds(MergeThresholds(current, first), second) == MergeThresholds(current, Then(first, second))
  {
  }

  /**
   * `updateThresholds`: 400 without a thresholds object, 404 when the
   * ownership query found no watch, otherwise the merged thresholds are saved
   * and nothing else about the watch changes.
   */
  method UpdateThresholds(watch: WatchDocument?, thresholds: Option<ThresholdsPatch>) returns (code: nat)
    modifies watch
    ensures thresholds.None? ==> code == 400
    ensures thresholds.Some? && watch == null ==> code == 404
    ensures thresholds.Some? && watch != null ==> code == 200
    ensures thresholds.Some? && watch != null ==> watch.thresholds == MergeThresholds(old(watch.thresholds), thresholds.value)
    ensures watch != null ==> watch.isActive == old(watch.isActive)
    ensures watch != null ==> watch.bestPriceFound == old(watch.bestPriceFound)
    ensures watch != null ==> watch.lastCheckedAt == old(watch.lastCheckedAt)
    ensures watch != null && thresholds.None? ==> watch.thresholds == old(watch.thresholds)
  {
    if thresholds.None? {
      return 400;
    }
    if watch == null {
      return 404;
    }
    watch.thresholds := MergeThresholds(watch.thresholds, thresholds.value);
    return 200;
  }

  /** `deletePriceWatch`: 404 when no owned watch was found, otherwise only deactivation. */
  method DeletePriceWatch(watch: WatchDocument?) returns (code: nat)
    modifies watch
    ensures watch == null ==> code == 404
    ensures watch != null ==> code == 200 && !watch.isActive
    ensures watch != null ==> watch.thresholds == old(watch.thresholds)
    ensures watch != null ==> watch.bestPriceFound == old(watch.bestPriceFound)
    ensures watch != null ==> watch.lastCheckedAt == old(watch.lastCheckedAt)
  {
    if watch == null {
      return 404;
    }
    watch.isActive := false;
    return 200;
  }

  // ---------------------------------------------------------------------------
  // Savings summary
  // ---------------------------------------------------------------------------

  /** A purchase that could have been made for less. */
  datatype Opportunity = Opportunity(
    itemName: string, savings: real, savingsPercent: Percent, bestPrice: real, store: string, originalPrice: real)

  datatype SavingsSummary = SavingsSummary(totalSavings: real, opportunitiesCount: nat, opportunities: seq<Opportunity>)

  /** The missed opportunity of one watch: only when a best price is known and below the purchase price. */
  function OpportunityOf(w: PriceWatch): (o: Option<Opportunity>)
    ensures o.Some? <==> w.bestPriceFound.Some? && w.bestPriceFound.value.price < w.originalPrice
    ensures o.Some? ==> o.value.savings > 0.0 && o.value.savings == w.originalPrice - o.value.bestPrice
  {
    match w.bestPriceFound
    case None => None
    case Some(best) =>
      var savings := w.originalPrice - best.price;
      if savings > 0.0 then
        Some(Opportunity(w.itemName, savings, SavingsPercent(savings, w.originalPrice), best.price, best.store, w.originalPrice))
      else None
  }

  /** The opportunities of the watches, in the order the watches come. */
  function Opportunities(watches: seq<PriceWatch>): (ops: seq<Opportunity>)
    ensures |ops| <= |watches|
    ensures forall k :: 0 <= k < |ops| ==> ops[k].savings > 0.0
  {
    if watches == [] then []
    else
      var last := watches[|watches| - 1];
      var ops := Opportunities(watches[..|watches| - 1]);
      match OpportunityOf(last)
      case Some(o) => ops + [o]
      case None => ops
  }

  function TotalSavings(ops: seq<Opportunity>): real {
    if ops == [] then 0.0 else TotalSavings(ops[..|ops| - 1]) + ops[|ops| - 1].savings
  }

  /** The sort key of the summary: savings, largest first. */
  function SavingsKey(o: Opportunity): real {
    o.savings
  }

  /** Every watch with a positive saving is counted, and only those. */
  lemma {:induction false} OpportunitiesExactly(watches: seq<PriceWatch>, o: Opportunity)
    ensures o in Opportunities(watches) <==> exists k :: 0 <= k < |watches| && OpportunityOf(watches[k]) == Some(o)
  {
    if watches != [] {
      var n := |watches| - 1;
      OpportunitiesExactly(watches[..n], o);
      assert forall k :: 0 <= k < n ==> watches[..n][k] == watches[k];
    }
  }

  /** The total is positive exactly when there is some opportunity, and it is at least each saving. */
  lemma {:induction false} TotalSavingsBounds(ops: seq<Opportunity>)
    requires forall k :: 0 <= k < |ops| ==> ops[k].savings > 0.0
    ensures TotalSavings(ops) > 0.0 <==> ops != []
    ensures forall k :: 0 <= k < |ops| ==> ops[k].savings <= TotalSavings(ops)
  {
    if ops != [] {
      var n := |ops| - 1;
      TotalSavingsBounds(ops[..n]);
      assert forall k :: 0 <= k < n ==> ops[..n][k] == ops[k];
    }
  }

  /** The summary lists the opportunities largest saving first and drops none. */
  lemma SummaryOrder(watches: seq<PriceWatch>)
    ensures SortedBy(SavingsKey, SortBy(SavingsKey, Opportunities(watches)))
    ensures multiset(SortBy(SavingsKey, Opportunities(watches))) == multiset(Opportunities(watches))
  {
    SortIsSortedPermutation(SavingsKey, Opportunities(watches));
  }

  /** The opportunities of one more watch: those before, then its own if it has one. */
  lemma OpportunitiesSnoc(watches: seq<PriceWatch>, i: nat)
    requires i < |watches|
    ensures OpportunityOf(watches[i]).None? ==> Opportunities(watches[..i + 1]) == Opportunities(watches[..i])
    ensures OpportunityOf(watches[i]).Some? ==>
              Opportunities(watches[..i + 1]) == Opportunities(watches[..i]) + [OpportunityOf(watches[i]).value]
  {
    assert watches[..i + 1][..i] == watches[..i];
  }

  /** The total of one more opportunity adds its saving. */
  lemma TotalSavingsSnoc(ops: seq<Opportunity>, o: Opportunity)
    ensures TotalSavings(ops + [o]) == TotalSavings(ops) + o.savings
  {
    assert (ops + [o])[..|ops|] == ops;
  }

  /** `getSavingsSummary` over the watches the query returned. */
  method GetSavingsSummary(watches: seq<PriceWatch>) returns (summary: SavingsSummary)
    ensures summary.totalSavings == TotalSavings(Opportunities(watches))
    ensures summary.opportunitiesCount == |Opportunities(watches)|
    ensures summary.opportunities == SortBy(SavingsKey, Opportunities(watches))
  {
    var totalSavings := 0.0;
    var missedOpportunities: seq<Opportunity> := [];
    for i := 0 to |watches|
      invariant missedOpportunities == Opportunities(watches[..i])
      invariant totalSavings == TotalSavings(missedOpportunities)
    {
      var watch := watches[i];
      OpportunitiesSnoc(watches, i);
      if watch.bestPriceFound.Some? {
        var savings := watch.originalPrice - watch.bestPriceFound.value.price;
        if savings > 0.0 {
          var o := Opportunity(
            watch.itemName, savings, SavingsPercent(savings, watch.originalPrice),
            watch.bestPriceFound.value.price, watch.bestPriceFound.value.store, watch.originalPrice);
          assert OpportunityOf(watch) == Some(o);
          TotalSavingsSnoc(missedOpportunities, o);
          totalSavings := totalSavings + savings;
          missedOpportunities := missedOpportunities + [o];
        }
      }
    }
    assert watches[..|watches|] == watches;
    summary := SavingsSummary(totalSavings, |missedOpportunities|, SortBy(SavingsKey, missedOpportunities));
  }
}
