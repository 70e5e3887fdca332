/**
 * The receipt detail screen's item rows
 * (mobile/src/screens/receipts/ReceiptDetailScreen.tsx): the value a
 * tracking switch sends, the set of item indices with a request in flight
 * (copied, never changed in place), the spinner that stands in for a switch,
 * and the quantity line.
 */
module ReceiptDetail {
  import opened Wrappers
  import ItemNormalizer
  import KeywordMatcher
  import ReceiptController

  /** What the switch displays: a missing `priceTrack` reads as off. */
  function SwitchValue(priceTrack: Option<bool>): bool {
    priceTrack.GetOr(false)
  }

  /** The body of a toggle request for one item. */
  datatype ToggleRequest = ToggleRequest(itemIndex: nat, priceTrack: bool)

  /** Toggling sends the negation of the displayed value. */
  function ToggleRequestFor(itemIndex: nat, priceTrack: Option<bool>): (req: ToggleRequest)
    ensures req.itemIndex == itemIndex
    ensures req.priceTrack <==> priceTrack != Some(true)
  {
    ToggleRequest(itemIndex, !SwitchValue(priceTrack))
  }

  /** Once the server stores the requested value, the switch shows the opposite of before. */
  lemma ToggleFlipsSwitch(itemIndex: nat, priceTrack: Option<bool>)
    ensures SwitchValue(Some(ToggleRequestFor(itemIndex, priceTrack).priceTrack)) == !SwitchValue(priceTrack)
  {
  }

  /** A request for `index` starts: a copy of the set with `index` added. */
  function StartUpdate(updating: set<nat>, index: nat): (next: set<nat>)
    ensures index in next
    ensures forall j | j != index :: j in next <==> j in updating
  {
    updating + {index}
  }

  /** A request for `index` finishes, whether it succeeded or failed: a copy without `index`. */
  function FinishUpdate(updating: set<nat>, index: nat): (next: set<nat>)
    ensures index !in next
    ensures forall j | j != index :: j in next <==> j in updating
  {
    updating - {index}
  }

  /** A request's index is in the set for the whole request, and finishing restores the set. */
  lemma UpdateLifecycle(updating: set<nat>, index: nat)
    requires index !in updating
    ensures index in StartUpdate(updating, index)
    ensures FinishUpdate(StartUpdate(updating, index), index) == updating
    ensures ShowsSpinner(StartUpdate(updating, index), index)
    ensures !ShowsSpinner(FinishUpdate(StartUpdate(updating, index), index), index)
    ensures forall p: Option<bool> :: ControlFor(StartUpdate(updating, index), index, p) == Spinner
    ensures forall p: Option<bool> ::
      ControlFor(FinishUpdate(StartUpdate(updating, index), index), index, p) == Switch(SwitchValue(p))
  {
  }

  /** Requests for different items do not disturb each other, in whatever order they finish. */
  lemma UpdatesInterleave(updating: set<nat>, i: nat, j: nat)
    requires i != j
    ensures j in FinishUpdate(StartUpdate(StartUpdate(updating, i), j), i)
    ensures FinishUpdate(FinishUpdate(StartUpdate(StartUpdate(updating, i), j), i), j)
            == FinishUpdate(FinishUpdate(StartUpdate(StartUpdate(updating, i), j), j), i)
  {
  }

  /** A spinner replaces the switch exactly while its item's request is in flight. */
  predicate ShowsSpinner(updating: set<nat>, index: nat) {
    index in updating
  }

  /** The "quantity × unit price" line appears only for more than one unit. */
  predicate ShowsQuantityLine(quantity: real) {
    quantity > 1.0
  }

  /** What stands in an item's tracking slot: a spinner, or the switch showing its value. */
  datatype TrackingControl = Spinner | Switch(on: bool)

  /** The tracking slot of item `index`. */
  function ControlFor(updating: set<nat>, index: nat, priceTrack: Option<bool>): (c: TrackingControl)
    ensures c == Spinner <==> ShowsSpinner(updating, index)
    ensures c.Switch? ==> c.on == (priceTrack == Some(true))
  {
    if ShowsSpinner(updating, index) then Spinner else Switch(SwitchValue(priceTrack))
  }

  /** A line of an item's price column. */
  datatype PriceLine = TotalLine(total: real) | QuantityLine(quantity: real, unitPrice: real)

  /** The price column: the total, then "quantity × unit price" for more than one unit. */
  function PriceLines(item: ReceiptController.ReceiptItem): (lines: seq<PriceLine>)
    ensures 1 <= |lines| <= 2 && lines[0] == TotalLine(item.totalPrice)
    ensures |lines| == 2 <==> ShowsQuantityLine(item.quantity)
    ensures |lines| == 2 ==> lines[1] == QuantityLine(item.quantity, item.unitPrice)
  {
    [TotalLine(item.totalPrice)] + if ShowsQuantityLine(item.quantity) then [QuantityLine(item.quantity, item.unitPrice)] else []
  }

  /** An item saved without a quantity, or with quantity 0, shows its total alone. */
  lemma DefaultQuantityShowsTotalOnly(tables: ItemNormalizer.AbbreviationTables,
                                      keywords: seq<KeywordMatcher.CategoryEntry>,
                                      item: ReceiptController.ItemInput, keepCategory: bool)
    requires item.quantity.None? || item.quantity.value == 0.0
    ensures PriceLines(ReceiptController.ProcessItem(tables, keywords, item, keepCategory)) == [TotalLine(item.totalPrice)]
  {
  }
}
