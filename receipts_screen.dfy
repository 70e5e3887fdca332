/**
 * The receipt list (mobile/src/screens/receipts/ReceiptsScreen.tsx): what the
 * list keeps after a delete, the item-count label, and which amounts the
 * detail alert shows. Money formatting (`toFixed(2)`) is kept abstract: an
 * amount is either shown formatted or replaced by a fixed text.
 */
module ReceiptsList {
  import opened Wrappers
  import opened JsText

  /** A receipt as the list holds it; only the fields these rules read. */
  datatype ListedReceipt = ListedReceipt(
    id: string,
    storeName: string,
    itemCount: nat,
    subtotal: Option<real>,
    tax: Option<real>,
    tip: Option<real>,
    total: real)

  // ---------------------------------------------------------------------------
  // Deleting
  // ---------------------------------------------------------------------------

  /** The list after the receipt `id` was deleted on the server: every other receipt, in order. */
  function AfterDelete(receipts: seq<ListedReceipt>, id: string): (kept: seq<ListedReceipt>)
    ensures |kept| <= |receipts|
    ensures forall r :: r in kept <==> r in receipts && r.id != id
    decreases |receipts|
  {
    if receipts == [] then []
    else
      var rest := AfterDelete(receipts[1..], id);
      if receipts[0].id != id then [receipts[0]] + rest else rest
  }

  /** Deleting works piecewise, so the kept receipts stay in their order. */
  lemma {:induction false} AfterDeleteConcat(xs: seq<ListedReceipt>, ys: seq<ListedReceipt>, id: string)
    ensures AfterDelete(xs + ys, id) == AfterDelete(xs, id) + AfterDelete(ys, id)
    decreases |xs|
  {
    if xs != [] {
      assert (xs + ys)[1..] == xs[1..] + ys;
      AfterDeleteConcat(xs[1..], ys, id);
    } else {
      assert xs + ys == ys;
    }
  }

  /** A list without that id is left as it is. */
  lemma {:induction false} AfterDeleteAbsent(receipts: seq<ListedReceipt>, id: string)
    requires forall i | 0 <= i < |receipts| :: receipts[i].id != id
    ensures AfterDelete(receipts, id) == receipts
    decreases |receipts|
  {
    if receipts != [] {
      AfterDeleteAbsent(receipts[1..], id);
    }
  }

  /** Deleting the same receipt again changes nothing. */
  lemma AfterDeleteIdempotent(receipts: seq<ListedReceipt>, id: string)
    ensures AfterDelete(AfterDelete(receipts, id), id) == AfterDelete(receipts, id)
  {
    var kept := AfterDelete(receipts, id);
    forall i | 0 <= i < |kept|
      ensures kept[i].id != id
    {
      assert kept[i] in kept;
    }
    AfterDeleteAbsent(kept, id);
  }

  // ---------------------------------------------------------------------------
  // Labels and amounts
  // ---------------------------------------------------------------------------

  /** "<n> item", or "<n> items" for any count other than one. */
  function ItemCountLabel(count: nat): (text: string)
    ensures |text| > |NatToString(count)|
    ensures text[|text| - 1] == 's' <==> count != 1
    ensures text[..|NatToString(count)|] == NatToString(count)
  {
    NatToString(count) + " item" + (if count != 1 then "s" else "")
  }

  /** An amount line's value: the amount formatted, or a fixed text in its place. */
  datatype AmountText = Formatted(amount: real) | Placeholder(text: string)

  /** `amount?.toFixed(2) || '0.00'`: a missing subtotal or tax reads "0.00". */
  function AmountOrZero(amount: Option<real>): (shown: AmountText)
    ensures shown.Placeholder? <==> amount.None?
    ensures shown.Placeholder? ==> shown.text == "0.00"
    ensures shown.Formatted? ==> shown.amount == amount.value
  {
    if amount.Some? then Formatted(amount.value) else Placeholder("0.00")
  }

  /** The tip line appears only for a present, positive tip. */
  predicate ShowsTip(tip: Option<real>) {
    tip.Some? && tip.value > 0.0
  }

  /** The lines of the detail alert below the items. */
  datatype AmountLines = AmountLines(subtotal: AmountText, tax: AmountText, tip: Option<real>, total: real)

  function DetailAmounts(r: ListedReceipt): (lines: AmountLines)
    ensures lines.tip.Some? <==> r.tip.Some? && r.tip.value > 0.0
    ensures lines.tip.Some? ==> lines.tip == r.tip
    ensures lines.subtotal == AmountOrZero(r.subtotal) && lines.tax == AmountOrZero(r.tax)
    ensures lines.total == r.total
  {
    AmountLines(AmountOrZero(r.subtotal), AmountOrZero(r.tax),
                if ShowsTip(r.tip) then r.tip else None, r.total)
  }
}
