/**
 * The request rules of the receipt controller: how submitted items are
 * normalised, categorised and defaulted, which of them get a price watch,
 * the pagination flag of a listing, the partial update of a receipt and the
 * per-item price-tracking toggle.  The item normaliser's tables, the keyword
 * table, the signed-in user, the receipt the ownership query found (or
 * `null`), database-assigned ids and the current instant are inputs.
 */
module ReceiptController {
  import opened Wrappers
  import opened JsText
  import opened PriceWatches
  import Http
  import ItemNormalizer
  import KeywordMatcher

  // ---------------------------------------------------------------------------
  // Items
  // ---------------------------------------------------------------------------

  /** An item as the client submits it; absent fields are `None`. */
  datatype ItemInput = ItemInput(
    name: string,
    category: Option<string>,
    quantity: Option<real>,
    unitPrice: Option<real>,
    totalPrice: real,
    confidence: Option<real>,
    priceTrack: Option<bool>)

  /** An item as a receipt stores it. */
  datatype ReceiptItem = ReceiptItem(
    name: string,
    normalizedName: string,
    category: string,
    quantity: real,
    unitPrice: real,
    totalPrice: real,
    confidence: Option<real>,
    priceTrack: bool)

  /** `x || fallback` on an optional number: absent and zero are both falsy. */
  function NumberOr(x: Option<real>, fallback: real): (r: real)
    ensures x.Some? && x.value != 0.0 ==> r == x.value
    ensures x.None? || x.value == 0.0 ==> r == fallback
  {
    if x.Some? && x.value != 0.0 then x.value else fallback
  }

  /**
   * The processing of one submitted item: its name normalised and
   * categorised, a falsy quantity replaced by 1, a falsy unit price by the
   * total price, and an undefined tracking flag by false.  On creation the
   * keyword category is always used; on update a truthy submitted category
   * is kept.
   */
  function ProcessItem(tables: ItemNormalizer.AbbreviationTables, keywords: seq<KeywordMatcher.CategoryEntry>,
                       item: ItemInput, keepCategory: bool): (r: ReceiptItem)
    ensures r.name == item.name && r.totalPrice == item.totalPrice && r.confidence == item.confidence
    ensures r.normalizedName == ItemNormalizer.NormalizeWith(tables, item.name)
    ensures r.quantity == NumberOr(item.quantity, 1.0)
    ensures r.unitPrice == NumberOr(item.unitPrice, item.totalPrice)
    ensures r.priceTrack <==> item.priceTrack == Some(true)
  {
    var normalizedName := ItemNormalizer.NormalizeWith(tables, item.name);
    var byKeywords := KeywordMatcher.Categorization(keywords, normalizedName).category;
    WithDefaults(item, normalizedName, if keepCategory then OrElse(item.category, byKeywords) else byKeywords)
  }

  /** The stored item with the falsy-value defaults applied. */
  function WithDefaults(item: ItemInput, normalizedName: string, category: string): (r: ReceiptItem)
    ensures r.name == item.name && r.normalizedName == normalizedName && r.category == category
    ensures r.totalPrice == item.totalPrice && r.confidence == item.confidence
    ensures r.quantity == NumberOr(item.quantity, 1.0)
    ensures r.unitPrice == NumberOr(item.unitPrice, item.totalPrice)
    ensures r.priceTrack <==> item.priceTrack == Some(true)
  {
    ReceiptItem(
      name := item.name,
      normalizedName := normalizedName,
      category := category,
      quantity := NumberOr(item.quantity, 1.0),
      unitPrice := NumberOr(item.unitPrice, item.totalPrice),
      totalPrice := item.totalPrice,
      confidence := item.confidence,
      priceTrack := if item.priceTrack.Some? then item.priceTrack.value else false)
  }

  /**
   * The falsy defaults of a processed item, case by case: a supplied non-zero
   * quantity or unit price is kept; an absent or zero one becomes 1 or the
   * total price.
   */
  lemma ItemDefaults(tables: ItemNormalizer.AbbreviationTables, keywords: seq<KeywordMatcher.CategoryEntry>,
                     item: ItemInput, keepCategory: bool)
    ensures var r := ProcessItem(tables, keywords, item, keepCategory);
      && (item.quantity.Some? && item.quantity.value != 0.0 ==> r.quantity == item.quantity.value)
      && (item.quantity.None? || item.quantity.value == 0.0 ==> r.quantity == 1.0)
      && (item.unitPrice.Some? && item.unitPrice.value != 0.0 ==> r.unitPrice == item.unitPrice.value)
      && (item.unitPrice.None? || item.unitPrice.value == 0.0 ==> r.unitPrice == item.totalPrice)
  {
  }

  /** `items.map(...)`: one processed item per submitted item, in order. */
  function ProcessItems(tables: ItemNormalizer.AbbreviationTables, keywords: seq<KeywordMatcher.CategoryEntry>,
                        items: seq<ItemInput>, keepCategory: bool): (r: seq<ReceiptItem>)
    ensures |r| == |items|
    ensures forall k :: 0 <= k < |items| ==> r[k] == ProcessItem(tables, keywords, items[k], keepCategory)
  {
    seq(|items|, k requires 0 <= k < |items| => ProcessItem(tables, keywords, items[k], keepCategory))
  }

  /** The category a processed item gets: a submitted one on update, else the keyword winner's. */
  lemma ItemCategory(tables: ItemNormalizer.AbbreviationTables, keywords: seq<KeywordMatcher.CategoryEntry>,
                     item: ItemInput, keepCategory: bool)
    ensures var r := ProcessItem(tables, keywords, item, keepCategory);
      var byKeywords := KeywordMatcher.Categorization(keywords, r.normalizedName).category;
      && (keepCategory && item.category.Some? && item.category.value != [] ==> r.category == item.category.value)
      && (!keepCategory || item.category.None? || item.category.value == [] ==> r.category == byKeywords)
  {
  }

  /** Items are processed one at a time and in order: processing a list made of two
      parts is processing each part and putting the results side by side. */
  lemma ProcessItemsKeepOrder(tables: ItemNormalizer.AbbreviationTables, keywords: seq<KeywordMatcher.CategoryEntry>,
                              items: seq<ItemInput>, more: seq<ItemInput>, keepCategory: bool)
    ensures ProcessItems(tables, keywords, items + more, keepCategory)
         == ProcessItems(tables, keywords, items, keepCategory) + ProcessItems(tables, keywords, more, keepCategory)
  {
  }

  // ---------------------------------------------------------------------------
  // Creating a receipt
  // ---------------------------------------------------------------------------

  /** A stored receipt as plain data. */
  datatype Receipt = Receipt(
    id: string,
    userId: string,
    storeName: string,
    storeAddress: Option<string>,
    date: int,
    items: seq<ReceiptItem>,
    subtotal: real,
    tax: real,
    total: real,
    ocrMethod: string,
    ocrConfidence: Option<real>,
    verified: bool,
    notes: Option<string>)

  /** The body of a creation request. */
  datatype CreateBody = CreateBody(
    storeName: string,
    storeAddress: Option<string>,
    date: int,
    items: seq<ItemInput>,
    subtotal: real,
    tax: real,
    total: real,
    ocrMethod: Option<string>,
    ocrConfidence: Option<real>,
    notes: Option<string>)

  /** The receipt `createReceipt` stores under the database-assigned `id`. */
  function NewReceipt(tables: ItemNormalizer.AbbreviationTables, keywords: seq<KeywordMatcher.CategoryEntry>,
                      id: string, userId: string, body: CreateBody): (r: Receipt)
    ensures r.items == ProcessItems(tables, keywords, body.items, false)
    ensures !r.verified
    ensures r.ocrMethod == OrElse(body.ocrMethod, "manual")
  {
    Receipt(id, userId, body.storeName, body.storeAddress, body.date,
      ProcessItems(tables, keywords, body.items, false),
      body.subtotal, body.tax, body.total, OrElse(body.ocrMethod, "manual"), body.ocrConfidence, false, body.notes)
  }

  /** The items with `priceTrack === true`, in order. */
  function TrackedItems(items: seq<ReceiptItem>): (r: seq<ReceiptItem>)
    ensures |r| <= |items|
    ensures forall k :: 0 <= k < |r| ==> r[k].priceTrack
  {
    if items == [] then []
    else
      var n := |items| - 1;
      if items[n].priceTrack then TrackedItems(items[..n]) + [items[n]] else TrackedItems(items[..n])
  }

  /** The watch created for a tracked item of a new receipt. */
  function WatchForItem(receipt: Receipt, item: ReceiptItem, userThresholds: Option<Thresholds>, now: int): PriceWatch {
    PriceWatch(
      userId := receipt.userId,
      receiptId := Some(receipt.id),
      itemName := item.name,
      normalizedName := item.normalizedName,
      category := item.category,
      originalPrice := item.totalPrice,
      storeName := receipt.storeName,
      purchaseDate := receipt.date,
      expiresAt := now + WatchLifetime,
      thresholds := userThresholds.GetOr(DefaultThresholds),
      isActive := true,
      lastCheckedAt := None,
      bestPriceFound := None)
  }

  /**
   * The watches `createReceipt` creates: one per tracked item, in order, when
   * the user's full record is found (`fullUser` holds its alert thresholds,
   * if any), and none otherwise.
   */
  function NewWatches(receipt: Receipt, fullUser: Option<Option<Thresholds>>, now: int): (ws: seq<PriceWatch>)
    ensures fullUser.Some? ==> |ws| == |TrackedItems(receipt.items)|
    ensures fullUser.None? ==> ws == []
  {
    if fullUser.None? then []
    else
      var tracked := TrackedItems(receipt.items);
      seq(|tracked|, k requires 0 <= k < |tracked| => WatchForItem(receipt, tracked[k], fullUser.value, now))
  }

  /** An item is tracked exactly when it is one of the receipt's items with the flag set. */
  lemma {:induction false} TrackedItemsExactly(items: seq<ReceiptItem>, it: ReceiptItem)
    ensures it in TrackedItems(items) <==> it in items && it.priceTrack
  {
    if items != [] {
      var n := |items| - 1;
      TrackedItemsExactly(items[..n], it);
      assert items == items[..n] + [items[n]];
    }
  }

  /** A new receipt gets a watch for a submitted item exactly when the item said
      `priceTrack: true`; items that left it undefined are not tracked. */
  lemma WatchedIffRequested(tables: ItemNormalizer.AbbreviationTables, keywords: seq<KeywordMatcher.CategoryEntry>,
                            id: string, userId: string, body: CreateBody, k: nat)
    requires k < |body.items|
    ensures var r := NewReceipt(tables, keywords, id, userId, body);
      r.items[k] in TrackedItems(r.items) <==> body.items[k].priceTrack == Some(true)
  {
    var r := NewReceipt(tables, keywords, id, userId, body);
    TrackedItemsExactly(r.items, r.items[k]);
  }

  /** `createReceipt`: 401 without a signed-in user, otherwise the receipt and its watches. */
  function CreateReceipt(tables: ItemNormalizer.AbbreviationTables, keywords: seq<KeywordMatcher.CategoryEntry>,
                         userId: Option<string>, id: string, body: CreateBody,
                         fullUser: Option<Option<Thresholds>>, now: int)
    : (r: Http.Reply<(Receipt, seq<PriceWatch>)>)
    ensures userId.None? <==> r.Failure?
    ensures r.Failure? ==> r.code == 401
    ensures r.Success? ==> r.code == 201 && r.data.0 == NewReceipt(tables, keywords, id, userId.value, body)
    ensures r.Success? ==> r.data.1 == NewWatches(r.data.0, fullUser, now)
  {
    if userId.None? then Http.Failure(401, "User not authenticated")
    else
      var receipt := NewReceipt(tables, keywords, id, userId.value, body);
      Http.Success(201, (receipt, NewWatches(receipt, fullUser, now)))
  }

  // ---------------------------------------------------------------------------
  // Listing
  // ---------------------------------------------------------------------------

  /** The pagination block of a listing; `limit` defaults to 50 and `skip` to 0. */
  datatype Pagination = Pagination(total: nat, limit: int, skip: int, hasMore: bool)

  function PaginationOf(total: nat, limit: Option<int>, skip: Option<int>): (p: Pagination)
    ensures p.limit == limit.GetOr(50) && p.skip == skip.GetOr(0) && p.total == total
  {
    var l := limit.GetOr(50);
    var s := skip.GetOr(0);
    Pagination(total, l, s, total > s + l)
  }

  /**
   * The page a listing returns from the sorted matches: `skip` matches are
   * passed over, then at most `limit` follow, where a limit of 0 means no
   * limit, as in MongoDB's `limit(0)`.
   */
  function Page<T>(matches: seq<T>, skip: nat, limit: nat): (page: seq<T>)
    ensures skip >= |matches| ==> page == []
    ensures skip < |matches| ==> skip + |page| <= |matches| && page == matches[skip..skip + |page|]
    ensures skip < |matches| && limit == 0 ==> |page| == |matches| - skip
    ensures skip < |matches| && limit > 0 ==>
              |page| == if skip + limit <= |matches| then limit else |matches| - skip
  {
    if skip >= |matches| then []
    else if limit > 0 && skip + limit <= |matches| then matches[skip..skip + limit]
    else matches[skip..]
  }

  /**
   * For a positive limit, `hasMore` says exactly that some match lies beyond
   * the returned page.  For a limit of 0 the page runs to the end, yet
   * `hasMore` holds whenever the page is not empty.
   */
  lemma HasMoreIffBeyondPage<T>(matches: seq<T>, skip: nat, limit: nat)
    ensures limit > 0 ==>
              (PaginationOf(|matches|, Some(limit), Some(skip)).hasMore
               <==> skip + |Page(matches, skip, limit)| < |matches|)
    ensures limit == 0 ==>
              && skip + |Page(matches, skip, limit)| >= |matches|
              && (PaginationOf(|matches|, Some(limit), Some(skip)).hasMore <==> skip < |matches|)
  {
  }

  /** With the defaults, there is more exactly when there are over 50 matches. */
  lemma DefaultPagination(total: nat)
    ensures PaginationOf(total, None, None).hasMore <==> total > 50
  {
  }

  // ---------------------------------------------------------------------------
  // Updating a receipt
  // ---------------------------------------------------------------------------

  /** The body of an update; every field may be left out. */
  datatype UpdateBody = UpdateBody(
    storeName: Option<string>,
    storeAddress: Option<string>,
    date: Option<int>,
    items: Option<seq<ItemInput>>,
    subtotal: Option<real>,
    tax: Option<real>,
    total: Option<real>,
    verified: Option<bool>,
    notes: Option<string>)

  /** The store name, address and date after an update: each replaced only by a truthy value. */
  function UpdatedHeader(r: Receipt, body: UpdateBody): (u: Receipt)
    ensures u == r.(storeName := u.storeName, storeAddress := u.storeAddress, date := u.date)
  {
    r.(
      storeName := OrElse(body.storeName, r.storeName),
      storeAddress := if body.storeAddress.Some? && body.storeAddress.value != [] then body.storeAddress else r.storeAddress,
      date := if body.date.Some? && body.date.value != 0 then body.date.value else r.date)
  }

  /** The amounts, the verified flag and the notes after an update: each replaced whenever defined. */
  function UpdatedAmounts(r: Receipt, body: UpdateBody): (u: Receipt)
    ensures u == r.(subtotal := u.subtotal, tax := u.tax, total := u.total, verified := u.verified, notes := u.notes)
  {
    r.(
      subtotal := body.subtotal.GetOr(r.subtotal),
      tax := body.tax.GetOr(r.tax),
      total := body.total.GetOr(r.total),
      verified := body.verified.GetOr(r.verified),
      notes := if body.notes.Some? then body.notes else r.notes)
  }

  /**
   * The receipt after `updateReceipt`: the store name, address and date only
   * when truthy, the amounts, the verified flag and the notes whenever
   * defined, and the items reprocessed when given.
   */
  function Updated(tables: ItemNormalizer.AbbreviationTables, keywords: seq<KeywordMatcher.CategoryEntry>,
                   r: Receipt, body: UpdateBody): (u: Receipt)
    ensures u.id == r.id && u.userId == r.userId && u.ocrMethod == r.ocrMethod && u.ocrConfidence == r.ocrConfidence
  {
    var fields := UpdatedAmounts(UpdatedHeader(r, body), body);
    fields.(items := if body.items.Some? then ProcessItems(tables, keywords, body.items.value, true) else r.items)
  }

  const EmptyUpdate := UpdateBody(None, None, None, None, None, None, None, None, None)

  /** An update that sends nothing leaves the receipt as it was. */
  lemma UpdateNothing(tables: ItemNormalizer.AbbreviationTables, keywords: seq<KeywordMatcher.CategoryEntry>, r: Receipt)
    ensures Updated(tables, keywords, r, EmptyUpdate) == r
  {
  }

  /** Sending the same update twice is sending it once. */
  lemma UpdateIdempotent(tables: ItemNormalizer.AbbreviationTables, keywords: seq<KeywordMatcher.CategoryEntry>,
                         r: Receipt, body: UpdateBody)
    ensures Updated(tables, keywords, Updated(tables, keywords, r, body), body) == Updated(tables, keywords, r, body)
  {
  }

  /** An empty store name is ignored, but a zero amount is stored. */
  lemma FalsyUpdateFields(tables: ItemNormalizer.AbbreviationTables, keywords: seq<KeywordMatcher.CategoryEntry>,
                          r: Receipt, body: UpdateBody)
    requires body.storeName == Some([]) && body.total == Some(0.0)
    ensures Updated(tables, keywords, r, body).storeName == r.storeName
    ensures Updated(tables, keywords, r, body).total == 0.0
  {
  }

  /** A receipt document; the fields an update or a toggle can change are assigned in place. */
  class ReceiptDocument {
    const id: string
    const userId: string
    const ocrMethod: string
    const ocrConfidence: Option<real>
    var storeName: string
    var storeAddress: Option<string>
    var date: int
    var items: seq<ReceiptItem>
    var subtotal: real
    var tax: real
    var total: real
    var verified: bool
    var notes: Option<string>

    /** The document loaded from a stored receipt. */
    constructor (r: Receipt)
      ensures Snapshot() == r
    {
      id, userId, ocrMethod, ocrConfidence := r.id, r.userId, r.ocrMethod, r.ocrConfidence;
      storeName, storeAddress, date, items := r.storeName, r.storeAddress, r.date, r.items;
      subtotal, tax, total, verified, notes := r.subtotal, r.tax, r.total, r.verified, r.notes;
    }

    function Snapshot(): Receipt
      reads this
    {
      Receipt(id, userId, storeName, storeAddress, date, items, subtotal, tax, total, ocrMethod, ocrConfidence, verified, notes)
    }

    /** The store name, address and date of an update, each only when truthy. */
    method UpdateHeader(body: UpdateBody)
      modifies this
      ensures Snapshot() == UpdatedHeader(old(Snapshot()), body)
    {
      if body.storeName.Some? && body.storeName.value != [] {
        storeName := body.storeName.value;
      }
      if body.storeAddress.Some? && body.storeAddress.value != [] {
        storeAddress := body.storeAddress;
      }
      if body.date.Some? && body.date.value != 0 {
        date := body.date.value;
      }
    }

    /** The rest of the scalar fields: each whenever the body defines it. */
    method UpdateAmounts(body: UpdateBody)
      modifies this
      ensures Snapshot() == UpdatedAmounts(old(Snapshot()), body)
    {
      if body.subtotal.Some? {
        subtotal := body.subtotal.value;
      }
      if body.tax.Some? {
        tax := body.tax.value;
      }
      if body.total.Some? {
        total := body.total.value;
      }
      if body.verified.Some? {
        verified := body.verified.value;
      }
      if body.notes.Some? {
        notes := body.notes;
      }
    }
  }

  /**
   * `updateReceipt`: 401 without a user, 404 when the owned receipt was not
   * found, otherwise the fields are assigned one by one as `Updated` says.
   */
  method UpdateReceipt(tables: ItemNormalizer.AbbreviationTables, keywords: seq<KeywordMatcher.CategoryEntry>,
                       signedIn: bool, receipt: ReceiptDocument?, body: UpdateBody) returns (code: nat)
    modifies receipt
    ensures !signedIn ==> code == 401
    ensures signedIn && receipt == null ==> code == 404
    ensures signedIn && receipt != null ==> code == 200
    ensures receipt != null && signedIn ==> receipt.Snapshot() == Updated(tables, keywords, old(receipt.Snapshot()), body)
    ensures receipt != null && !signedIn ==> receipt.Snapshot() == old(receipt.Snapshot())
  {
    if !signedIn {
      return 401;
    }
    if receipt == null {
      return 404;
    }
    receipt.UpdateHeader(body);
    receipt.UpdateAmounts(body);
    if body.items.Some? {
      receipt.items := ProcessItems(tables, keywords, body.items.value, true);
    }
    return 200;
  }

  // ---------------------------------------------------------------------------
  // Toggling price tracking of one item
  // ---------------------------------------------------------------------------

  /** What the toggle does to the watches afterwards. */
  datatype WatchAction =
    | NoWatchChange
    | CreateWatch(watch: PriceWatch)
    | DeactivateWatches(receiptId: string, normalizedName: string)

  /** `updateMany({receiptId, normalizedName, isActive: true}, {$set: {isActive: false}})`. */
  function Deactivate(watches: seq<PriceWatch>, receiptId: string, normalizedName: string): (r: seq<PriceWatch>)
    ensures |r| == |watches|
  {
    seq(|watches|, k requires 0 <= k < |watches| =>
      var w := watches[k];
      if w.receiptId == Some(receiptId) && w.normalizedName == normalizedName && w.isActive then w.(isActive := false) else w)
  }

  /** Deactivation switches off exactly the active watches of that receipt item and nothing else. */
  lemma DeactivateEffect(watches: seq<PriceWatch>, receiptId: string, normalizedName: string, k: nat)
    requires k < |watches|
    ensures var w := watches[k];
      var r := Deactivate(watches, receiptId, normalizedName)[k];
      && (w.receiptId == Some(receiptId) && w.normalizedName == normalizedName ==> !r.isActive)
      && (w.receiptId != Some(receiptId) || w.normalizedName != normalizedName ==> r == w)
      && r == w.(isActive := r.isActive)
  {
  }

  /**
   * `toggleItemPriceTracking`: 401 without a user, 400 without an index or a
   * flag, 404 when the owned receipt was not found, 400 for an index outside
   * the items; otherwise only that item's flag is set, followed by creating a
   * watch for it (when the user's full record is found) or deactivating its
   * watches.
   */
  method ToggleItemPriceTracking(receipt: ReceiptDocument?, signedIn: bool, itemIndex: Option<int>,
                                 priceTrack: Option<bool>, fullUser: Option<Option<Thresholds>>, now: int)
    returns (code: nat, action: WatchAction)
    modifies receipt
    ensures !signedIn ==> code == 401
    ensures signedIn && (itemIndex.None? || priceTrack.None?) ==> code == 400
    ensures signedIn && itemIndex.Some? && priceTrack.Some? && receipt == null ==> code == 404
    ensures receipt != null && code != 200 ==> receipt.Snapshot() == old(receipt.Snapshot()) && action == NoWatchChange
    ensures code == 200 <==> signedIn && itemIndex.Some? && priceTrack.Some? && receipt != null
                             && 0 <= itemIndex.value < |old(receipt.items)|
    ensures code == 200 ==>
      var i := itemIndex.value;
      var item := old(receipt.items)[i].(priceTrack := priceTrack.value);
      && receipt.items == old(receipt.items)[i := item]
      && receipt.Snapshot() == old(receipt.Snapshot()).(items := receipt.items)
      && (priceTrack.value && fullUser.Some? ==> action == CreateWatch(WatchForItem(receipt.Snapshot(), item, fullUser.value, now)))
      && (priceTrack.value && fullUser.None? ==> action == NoWatchChange)
      && (!priceTrack.value ==> action == DeactivateWatches(receipt.id, item.normalizedName))
  {
    action := NoWatchChange;
    if !signedIn {
      return 401, action;
    }
    if itemIndex.None? || priceTrack.None? {
      return 400, action;
    }
    if receipt == null {
      return 404, action;
    }
    var i := itemIndex.value;
    if i < 0 || i >= |receipt.items| {
      return 400, action;
    }
    receipt.items := receipt.items[i := receipt.items[i].(priceTrack := priceTrack.value)];
    var item := receipt.items[i];
    if priceTrack.value {
      if fullUser.Some? {
        action := CreateWatch(WatchForItem(receipt.Snapshot(), item, fullUser.value, now));
      }
    } else {
      action := DeactivateWatches(receipt.id, item.normalizedName);
    }
    return 200, action;
  }
}
