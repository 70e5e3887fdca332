/**
 * The receipt scan screen: turning the text blocks of on-device OCR into a
 * draft receipt, the manual-entry draft, the save guard and the edits the
 * review form makes to a draft.
 *
 * The parser is deliberately basic: the store name is the first block, the
 * total is the number after the first "total" (in any letter case), and
 * items are the successive matches of the global item pattern over the
 * blocks joined by newlines.
 */
module ScanScreen {
  import opened Wrappers
  import opened JsText
  import opened EcmaRegex
  import opened ScanPatterns
  import opened ScanPatternFacts

  datatype DraftItem = DraftItem(name: string, totalPrice: real, quantity: nat)

  datatype ReceiptDraft = ReceiptDraft(
    storeName: string,
    date: string,
    items: seq<DraftItem>,
    total: real,
    subtotal: real,
    tax: real,
    ocrMethod: string,
    ocrConfidence: Option<nat>)

  /** The row the form starts with and "Add Item" appends. */
  const BlankItem: DraftItem := DraftItem("", 0.0, 1)

  /** An amount with at most two decimals. */
  predicate IsCents(v: real) {
    (v * 100.0).Floor as real == v * 100.0
  }

  // ---------------------------------------------------------------------------
  // The parser, specified
  // ---------------------------------------------------------------------------

  /** The text of all blocks, one per line. */
  function AllText(blocks: seq<string>): string {
    JoinWith(blocks, "\n")
  }

  /** `lines[0] || 'Unknown Store'`. */
  function StoreNameOf(blocks: seq<string>): (r: string)
    ensures |blocks| > 0 && blocks[0] != [] ==> r == blocks[0]
    ensures |blocks| == 0 || blocks[0] == [] ==> r == "Unknown Store"
  {
    OrElse(if |blocks| > 0 then Some(blocks[0]) else None, "Unknown Store")
  }

  /** The total: the value of the number the first total match captures, or 0 without one. */
  function TotalOf(text: string): real {
    match Exec(TotalPattern, text, 0)
    case None => 0.0
    case Some(m) =>
      TotalExecFacts(text);
      NumberValue(Group(text, m, 1).value)
  }

  /** A string on one line. */
  predicate OneLine(s: string) {
    forall k :: 0 <= k < |s| ==> !IsLineTerminator(s[k])
  }

  /** What the parser relies on about an item match: a one-line name group and a price group. */
  predicate ItemShape(text: string, m: Match) {
    1 in m.caps && 2 in m.caps
    && m.caps[1].0 <= m.caps[1].1 <= |text| && m.caps[2].0 <= m.caps[2].1 <= |text|
    && OneLine(text[m.caps[1].0..m.caps[1].1])
    && PriceText(text[m.caps[2].0..m.caps[2].1])
  }

  /** Each match of the item pattern has that shape and lies past `lastIndex`. */
  lemma ItemExecShape(text: string, lastIndex: nat)
    requires Exec(ItemPattern, text, lastIndex).Some?
    ensures lastIndex <= Exec(ItemPattern, text, lastIndex).value.start < Exec(ItemPattern, text, lastIndex).value.end
    ensures ItemShape(text, Exec(ItemPattern, text, lastIndex).value)
  {
    ItemExecFacts(text, lastIndex);
    var m := Exec(ItemPattern, text, lastIndex).value;
    ItemGroups(text, m);
    var h := ItemHitAt(text, m.start).value;
    assert m.caps == map[1 := (m.start, h.nameEnd), 2 := (h.priceStart, m.end)];
    RunIsOneLine(text, m.start, h.nameEnd);
  }

  /** A stretch within a run of `.` characters is on one line. */
  lemma RunIsOneLine(s: string, i: nat, j: nat)
    requires i <= |s| && i <= j <= i + Run(NonLineTerminator, s, i)
    ensures j <= |s| && OneLine(s[i..j])
  {
    forall k | 0 <= k < j - i
      ensures !IsLineTerminator(s[i..j][k])
    {
      RunChars(NonLineTerminator, s, i, i + k);
    }
  }

  /** The successive matches of the global item pattern from `lastIndex` on. */
  function ItemMatches(text: string, lastIndex: nat): (ms: seq<Match>)
    ensures forall k :: 0 <= k < |ms| ==> ItemShape(text, ms[k]) && lastIndex <= ms[k].start < ms[k].end
    ensures forall k :: 0 <= k < |ms| - 1 ==> ms[k].end <= ms[k + 1].start
    decreases |text| - lastIndex
  {
    match Exec(ItemPattern, text, lastIndex)
    case None => []
    case Some(m) =>
      ItemExecShape(text, lastIndex);
      [m] + ItemMatches(text, m.end)
  }

  /**
   * The item one match contributes, its price the exact decimal the digits
   * denote: none when a group is empty or the name mentions "total".
   */
  function ItemOf(text: string, m: Match): Option<DraftItem>
    requires ItemShape(text, m)
  {
    var name := Group(text, m, 1).value;
    var price := Group(text, m, 2).value;
    if name != [] && price != [] && !Contains(LowerStr(name), "total")
    then Some(DraftItem(Trim(name), PriceCents(price) as real / 100.0, 1))
    else None
  }

  /** A match is kept exactly when both groups are non-empty and the name does not mention "total". */
  lemma ItemOfKept(text: string, m: Match)
    requires ItemShape(text, m)
    ensures ItemOf(text, m).Some?
            <==> Group(text, m, 1).value != [] && Group(text, m, 2).value != []
                 && !Contains(LowerStr(Group(text, m, 1).value), "total")
  {
  }

  /** The item of a kept match, from its two groups. */
  lemma ItemOfIs(text: string, m: Match, name: string, price: string)
    requires ItemShape(text, m) && Group(text, m, 1) == Some(name) && Group(text, m, 2) == Some(price)
    requires name != [] && price != [] && !Contains(LowerStr(name), "total")
    ensures PriceText(price) && ItemOf(text, m) == Some(DraftItem(Trim(name), PriceCents(price) as real / 100.0, 1))
  {
  }

  /** A kept match's item holds the trimmed name and what `parseFloat` makes of the price. */
  lemma ItemOfParsed(text: string, m: Match)
    requires ItemShape(text, m) && ItemOf(text, m).Some?
    ensures ParseFloat(Group(text, m, 2).value).Some?
    ensures ItemOf(text, m).value
            == DraftItem(Trim(Group(text, m, 1).value), ParseFloat(Group(text, m, 2).value).value, 1)
  {
    PriceTextParses(Group(text, m, 2).value);
  }

  /** The items a list of matches contributes, in order. */
  function KeptItems(text: string, ms: seq<Match>): seq<DraftItem>
    requires forall k :: 0 <= k < |ms| ==> ItemShape(text, ms[k])
  {
    if ms == [] then []
    else
      (match ItemOf(text, ms[0]) case Some(it) => [it] case None => [])
      + KeptItems(text, ms[1..])
  }

  /** The items the parser finds in `text`. */
  function ItemsOf(text: string): seq<DraftItem> {
    KeptItems(text, ItemMatches(text, 0))
  }

  // ---------------------------------------------------------------------------
  // The parser, as the screen runs it
  // ---------------------------------------------------------------------------

  /**
   * `parseReceiptText`. `now` is the current time as an ISO string: the
   * date pattern is looked for, but either way the draft is dated now.
   */
  method ParseReceiptText(blocks: seq<string>, now: string) returns (draft: ReceiptDraft)
    ensures draft.storeName == StoreNameOf(blocks)
    ensures draft.total == TotalOf(AllText(blocks))
    ensures draft.items == ItemsOf(AllText(blocks))
    ensures draft.subtotal == draft.total && draft.tax == 0.0
    ensures draft.date == now
    ensures draft.ocrMethod == "on-device" && draft.ocrConfidence == Some(70)
  {
    var allText := JoinWith(blocks, "\n");
    var storeName := OrElse(if |blocks| > 0 then Some(blocks[0]) else None, "Unknown Store");

    var total := 0.0;
    var totalMatch := Exec(TotalPattern, allText, 0);
    if totalMatch.Some? {
      TotalExecFacts(allText);
      var digits := Group(allText, totalMatch.value, 1).value;
      NumberTextParses(digits);
      total := ParseFloat(digits).value;
    }

    var items: seq<DraftItem> := [];
    var lastIndex: nat := 0;
    var match_ := Exec(ItemPattern, allText, lastIndex);
    while match_.Some?
      invariant match_ == Exec(ItemPattern, allText, lastIndex)
      invariant items + KeptItems(allText, ItemMatches(allText, lastIndex)) == ItemsOf(allText)
      decreases |allText| - lastIndex
    {
      var m := match_.value;
      ItemExecShape(allText, lastIndex);
      ghost var ms := ItemMatches(allText, lastIndex);
      assert ms == [m] + ItemMatches(allText, m.end);
      KeptItemsCons(allText, ms);
      ghost var later := KeptItems(allText, ms[1..]);
      ghost var before := items;
      var name := Group(allText, m, 1);
      var price := Group(allText, m, 2);
      if name.Some? && name.value != [] && price.Some? && price.value != []
         && !Contains(LowerStr(name.value), "total")
      {
        PriceTextParses(price.value);
        items := items + [DraftItem(Trim(name.value), ParseFloat(price.value).value, 1)];
        ItemOfParsed(allText, m);
        AppendAssoc(before, [ItemOf(allText, m).value], later);
      } else {
        ItemOfKept(allText, m);
        assert KeptItems(allText, ms) == later;
      }
      lastIndex := m.end;
      match_ := Exec(ItemPattern, allText, lastIndex);
      assert ms[1..] == ItemMatches(allText, lastIndex);
    }
    assert ItemMatches(allText, lastIndex) == [];
    draft := ReceiptDraft(storeName, now, items, total, total, 0.0, "on-device", Some(70));
  }

  lemma AppendAssoc<T>(a: seq<T>, b: seq<T>, c: seq<T>)
    ensures (a + b) + c == a + (b + c)
  {
  }

  // ---------------------------------------------------------------------------
  // What the parser promises
  // ---------------------------------------------------------------------------

  /** The total is the number after the leftmost "total" that a number follows. */
  lemma {:induction false} TotalSearchLeftmost(s: string, p: nat, i: nat)
    requires p <= i <= |s| && TotalHitAt(s, i).Some?
    requires forall j :: p <= j < i ==> TotalHitAt(s, j).None?
    ensures TotalSearch(s, p) == Some(Match(i, TotalHitAt(s, i).value.1, map[1 := TotalHitAt(s, i).value]))
    decreases i - p
  {
    if p < i {
      TotalSearchLeftmost(s, p + 1, i);
    }
  }

  /** Where there is a total hit, the total is the value of the leftmost one's number. */
  lemma TotalIsLeftmost(text: string, i: nat)
    requires i <= |text| && TotalHitAt(text, i).Some?
    requires forall j :: 0 <= j < i ==> TotalHitAt(text, j).None?
    ensures NumberText(text[TotalHitAt(text, i).value.0..TotalHitAt(text, i).value.1])
    ensures TotalOf(text) == NumberValue(text[TotalHitAt(text, i).value.0..TotalHitAt(text, i).value.1])
  {
    var g := TotalHitAt(text, i).value;
    TotalSearchLeftmost(text, 0, i);
    TotalSearchAgrees(text, 0);
    var m := Match(i, g.1, map[1 := g]);
    assert Exec(TotalPattern, text, 0) == Some(m);
    assert Group(text, m, 1) == Some(text[g.0..g.1]);
    NumberEndText(text, g.0);
    NumberTextParses(text[g.0..g.1]);
  }

  /** Without any total hit, the total is 0. */
  lemma TotalWithoutHit(text: string)
    requires forall j :: 0 <= j <= |text| ==> TotalHitAt(text, j).None?
    ensures TotalOf(text) == 0.0
  {
    TotalSearchAgrees(text, 0);
    TotalSearchNone(text, 0);
  }

  lemma {:induction false} TotalSearchNone(s: string, p: nat)
    requires p <= |s|
    requires forall j :: p <= j <= |s| ==> TotalHitAt(s, j).None?
    ensures TotalSearch(s, p).None?
    decreases |s| - p
  {
    if p < |s| {
      TotalSearchNone(s, p + 1);
    }
  }

  /** Every kept item: quantity 1, a non-negative whole-cent price, a one-line name without "total". */
  predicate WellFormedItem(it: DraftItem) {
    it.quantity == 1
    && it.totalPrice >= 0.0 && IsCents(it.totalPrice)
    && OneLine(it.name)
    && !Contains(LowerStr(it.name), "total")
  }

  lemma CentsAreCents(c: nat)
    ensures c as real / 100.0 >= 0.0 && IsCents(c as real / 100.0)
  {
    assert (c as real / 100.0) * 100.0 == c as real;
  }

  /** Trimming keeps a name on one line. */
  lemma TrimmedOneLine(raw: string)
    requires OneLine(raw)
    ensures OneLine(Trim(raw))
  {
    var t := TrimStart(raw);
    OneLineSlice(raw, |raw| - |t|, |raw|);
    OneLineSlice(t, 0, |TrimEnd(t)|);
  }

  lemma OneLineSlice(s: string, a: nat, b: nat)
    requires a <= b <= |s| && OneLine(s)
    ensures OneLine(s[a..b])
  {
    assert forall k :: 0 <= k < b - a ==> s[a..b][k] == s[a + k];
  }

  /** What one kept match contributes is well formed. */
  lemma ItemOfWellFormed(text: string, m: Match)
    requires ItemShape(text, m) && ItemOf(text, m).Some?
    ensures WellFormedItem(ItemOf(text, m).value)
  {
    TrimmedOneLine(Group(text, m, 1).value);
    TrimKeepsOut(Group(text, m, 1).value, "total");
    CentsAreCents(PriceCents(Group(text, m, 2).value));
  }

  /** The items a match list contributes: its first match's, then the rest's. */
  lemma KeptItemsCons(text: string, ms: seq<Match>)
    requires ms != [] && forall k :: 0 <= k < |ms| ==> ItemShape(text, ms[k])
    ensures KeptItems(text, ms)
            == (if ItemOf(text, ms[0]).Some? then [ItemOf(text, ms[0]).value] else []) + KeptItems(text, ms[1..])
  {
  }

  lemma {:induction false} KeptItemWellFormed(text: string, ms: seq<Match>, k: nat)
    requires forall j :: 0 <= j < |ms| ==> ItemShape(text, ms[j])
    requires k < |KeptItems(text, ms)|
    ensures WellFormedItem(KeptItems(text, ms)[k])
  {
    KeptItemsCons(text, ms);
    if ItemOf(text, ms[0]).Some? {
      if k == 0 {
        ItemOfWellFormed(text, ms[0]);
      } else {
        KeptItemWellFormed(text, ms[1..], k - 1);
      }
    } else {
      KeptItemWellFormed(text, ms[1..], k);
    }
  }

  /** Every item the parser returns is well formed. */
  lemma ItemsWellFormed(text: string, k: nat)
    requires k < |ItemsOf(text)|
    ensures WellFormedItem(ItemsOf(text)[k])
  {
    KeptItemWellFormed(text, ItemMatches(text, 0), k);
  }

  /** "Subtotal 5.48" on an earlier line wins over "Total 5.92": "total" matches inside it. */
  lemma SubtotalLineWins()
    ensures TotalOf(AllText(["Subtotal 5.48", "Total 5.92"])) == 548.0 / 100.0
  {
    var text := AllText(["Subtotal 5.48", "Total 5.92"]);
    assert text == "Subtotal 5.48\nTotal 5.92";
    assert StartsWithSubtotalLine(text);
    SubtotalLineTotal(text);
  }

  /** Any text starting with the line "Subtotal 5.48" has total 5.48. */
  lemma SubtotalLineTotal(text: string)
    requires StartsWithSubtotalLine(text)
    ensures TotalOf(text) == 548.0 / 100.0
  {
    SubtotalHits(text);
    TotalIsLeftmost(text, 3);
    var price := text[9..13];
    assert price[0] == '5' && price[1] == '.' && price[2] == '4' && price[3] == '8';
    NumberValueOfPrice(price);
  }

  /** The text begins with the line "Subtotal 5.48". */
  predicate StartsWithSubtotalLine(text: string) {
    && |text| > 13
    && text[0] == 'S' && text[1] == 'u' && text[2] == 'b' && text[3] == 't' && text[4] == 'o'
    && text[5] == 't' && text[6] == 'a' && text[7] == 'l' && text[8] == ' ' && text[9] == '5'
    && text[10] == '.' && text[11] == '4' && text[12] == '8' && text[13] == '\n'
  }

  lemma SubtotalHits(text: string)
    requires StartsWithSubtotalLine(text)
    ensures forall j :: 0 <= j < 3 ==> TotalHitAt(text, j).None?
    ensures TotalHitAt(text, 3) == Some((9, 13))
  {
    SubtotalWords(text);
    SubtotalNumber(text);
    forall j | 0 <= j < 3
      ensures TotalHitAt(text, j).None?
    {
      assert !TotalWordAt(text, j);
    }
  }

  lemma SubtotalWords(text: string)
    requires StartsWithSubtotalLine(text)
    ensures !TotalWordAt(text, 0) && !TotalWordAt(text, 1) && !TotalWordAt(text, 2)
    ensures TotalWordAt(text, 3)
  {
  }

  lemma SubtotalNumber(text: string)
    requires |text| > 13 && text[8] == ' ' && text[9] == '5' && text[10] == '.'
    requires text[11] == '4' && text[12] == '8' && text[13] == '\n'
    ensures NumberAfter(text, 8) == Some((9, 13))
  {
    ColonOrSpaceIs(text[8]);
    ColonOrSpaceIs(text[9]);
    RunIs(ColonOrSpace, text, 8, 1);
    RunIs(Digit, text, 9, 1);
    RunIs(Digit, text, 11, 2);
    assert PriceStart(text, 9) == 9;
    assert NumberEnd(text, 9) == 13;
  }

  lemma NumberValueOfPrice(t: string)
    requires |t| == 4 && t[0] == '5' && t[1] == '.' && t[2] == '4' && t[3] == '8'
    ensures NumberText(t) && NumberValue(t) == 548.0 / 100.0
  {
    assert LeadingDigits(t[1..]) == 0;
    assert LeadingDigits(t) == 1;
    assert DigitsValue(t[..1][..0]) == 0;
    assert DigitsValue(t[..1]) == 5;
    var f := t[2..];
    assert DigitsValue(f[..1][..0]) == 0;
    assert DigitsValue(f[..1]) == 4;
    assert DigitsValue(f) == 48;
    assert Pow10(2) == 100;
  }

  /** A name block followed by a "$1.99" block gives one item: `\s+` spans the line break. */
  lemma NameAbovePrice()
    ensures ItemsOf(AllText(["Bananas", "$1.99"])) == [DraftItem("Bananas", 199.0 / 100.0, 1)]
  {
    var text := AllText(["Bananas", "$1.99"]);
    assert text == "Bananas\n$1.99";
    var m := BananasMatches(text);
    BananasItem(text, m);
    KeptItemsCons(text, [m]);
  }

  /** The item pattern matches "Bananas\n$1.99" once, with the name and the price as groups. */
  lemma BananasMatches(text: string) returns (m: Match)
    requires text == "Bananas\n$1.99"
    ensures ItemMatches(text, 0) == [m]
    ensures ItemShape(text, m) && Group(text, m, 1) == Some("Bananas") && Group(text, m, 2) == Some("1.99")
  {
    var h := BananasHit(text);
    ItemSearchAgrees(text, 0);
    ItemSearchAgrees(text, 13);
    m := Match(0, 13, ItemState(0, h).caps);
    assert Exec(ItemPattern, text, 0) == Some(m);
    assert Exec(ItemPattern, text, 13) == None;
    assert ItemMatches(text, 13) == [];
    assert ItemMatches(text, 0) == [m];
    BananasShape(text, m);
  }

  lemma BananasHit(text: string) returns (h: ItemHit)
    requires text == "Bananas\n$1.99"
    ensures h == ItemHit(7, 9, 13) && ItemHitAt(text, 0) == Some(h) && ItemHitAt(text, 13).None?
  {
    h := ItemHit(7, 9, 13);
    BananasRuns(text);
    BananasHitFromRuns(text);
  }

  lemma BananasRuns(text: string)
    requires text == "Bananas\n$1.99"
    ensures |text| == 13 && text[8] == '$' && text[10] == '.'
    ensures Run(NonLineTerminator, text, 0) == 7 && Run(NonLineTerminator, text, 13) == 0
    ensures forall j :: 1 <= j < 7 ==> Run(Whitespace, text, j) == 0
    ensures Run(Whitespace, text, 7) == 1 && Run(Digit, text, 9) == 1 && Run(Digit, text, 11) == 2
  {
    BananasNameRun(text);
    BananasPriceRuns(text);
  }

  lemma BananasNameRun(text: string)
    requires text == "Bananas\n$1.99"
    ensures Run(NonLineTerminator, text, 0) == 7
    ensures forall j :: 1 <= j < 7 ==> Run(Whitespace, text, j) == 0
  {
    RunIs(NonLineTerminator, text, 0, 7);
  }

  lemma BananasPriceRuns(text: string)
    requires |text| == 13 && text[7] == '\n' && text[8] == '$' && text[9] == '1'
    requires text[10] == '.' && text[11] == '9' && text[12] == '9'
    ensures Run(Whitespace, text, 7) == 1 && Run(Digit, text, 9) == 1 && Run(Digit, text, 11) == 2
  {
    RunIs(Whitespace, text, 7, 1);
    RunIs(Digit, text, 9, 1);
    RunIs(Digit, text, 11, 2);
  }

  lemma BananasHitFromRuns(text: string)
    requires |text| == 13 && text[8] == '$' && text[10] == '.'
    requires Run(NonLineTerminator, text, 0) == 7 && Run(NonLineTerminator, text, 13) == 0
    requires forall j :: 1 <= j < 7 ==> Run(Whitespace, text, j) == 0
    requires Run(Whitespace, text, 7) == 1 && Run(Digit, text, 9) == 1 && Run(Digit, text, 11) == 2
    ensures ItemHitAt(text, 0) == Some(ItemHit(7, 9, 13)) && ItemHitAt(text, 13).None?
  {
    assert PriceAfter(text, 7) == Some((9, 13));
    LazyNameEndFirst(text, 1, 7);
  }

  /** The lazy name ends at the first position with a price after it. */
  lemma {:induction false} LazyNameEndFirst(s: string, j: nat, last: nat)
    requires j <= last <= |s| && PriceAfter(s, last).Some?
    requires forall q :: j <= q < last ==> PriceAfter(s, q).None?
    ensures LazyNameEnd(s, j, last) == Some(last)
    decreases last - j
  {
    if j < last {
      LazyNameEndFirst(s, j + 1, last);
    }
  }

  lemma BananasItem(text: string, m: Match)
    requires ItemShape(text, m) && Group(text, m, 1) == Some("Bananas") && Group(text, m, 2) == Some("1.99")
    ensures ItemOf(text, m) == Some(DraftItem("Bananas", 199.0 / 100.0, 1))
  {
    var name, price := "Bananas", "1.99";
    BananasName(name);
    PriceOfOneNinetyNine(price);
    ItemOfIs(text, m, name, price);
  }

  lemma BananasShape(text: string, m: Match)
    requires text == "Bananas\n$1.99" && m == Match(0, 13, map[1 := (0, 7), 2 := (9, 13)])
    ensures ItemShape(text, m) && Group(text, m, 1) == Some("Bananas") && Group(text, m, 2) == Some("1.99")
  {
    BananasNameRun(text);
    RunIsOneLine(text, 0, 7);
    assert text[0..7] == "Bananas" && text[9..13] == "1.99";
    PriceOfOneNinetyNine(text[9..13]);
  }

  lemma BananasName(name: string)
    requires name == "Bananas"
    ensures !Contains(LowerStr(name), "total") && Trim(name) == name
  {
    NoLetterT(name);
    TrimUntouched(name);
  }

  lemma PriceOfOneNinetyNine(t: string)
    requires |t| == 4 && t[0] == '1' && t[1] == '.' && t[2] == '9' && t[3] == '9'
    ensures PriceText(t) && PriceCents(t) == 199
  {
    assert !IsDigit(t[1]);
    assert AllDigits(t[..1]) && AllDigits(t[2..]);
    assert DigitsValue(t[..1][..0]) == 0;
    assert DigitsValue(t[..1]) == 1;
    var f := t[2..];
    assert DigitsValue(f[..1][..0]) == 0;
    assert DigitsValue(f[..1]) == 9;
    assert DigitsValue(f) == 99;
  }

  // ---------------------------------------------------------------------------
  // Manual entry, saving and the review form
  // ---------------------------------------------------------------------------

  /** `createManualReceipt`: an empty form with one blank row. */
  function ManualReceipt(now: string): (d: ReceiptDraft)
    ensures d.storeName == [] && d.items == [BlankItem]
    ensures d.total == 0.0 && d.subtotal == 0.0 && d.tax == 0.0
    ensures d.ocrMethod == "manual" && d.ocrConfidence.None? && d.date == now
  {
    ReceiptDraft("", now, [BlankItem], 0.0, 0.0, 0.0, "manual", None)
  }

  datatype SaveOutcome = NothingToSave | MissingFields | Submit(draft: ReceiptDraft)

  /** The guard of `saveReceipt`: only a draft with a store name and an item is sent. */
  function SaveDecision(d: Option<ReceiptDraft>): (r: SaveOutcome)
    ensures r.Submit? <==> d.Some? && d.value.storeName != [] && |d.value.items| > 0
    ensures r.Submit? ==> r.draft == d.value
    ensures r == NothingToSave <==> d.None?
  {
    if d.None? then NothingToSave
    else if d.value.storeName == [] || |d.value.items| == 0 then MissingFields
    else Submit(d.value)
  }

  /** The manual form cannot be saved until a store name is typed, and can once it is. */
  lemma ManualNeedsStoreName(now: string, name: string)
    requires name != []
    ensures SaveDecision(Some(ManualReceipt(now))) == MissingFields
    ensures SaveDecision(Some(EditStoreName(ManualReceipt(now), name))).Submit?
  {
  }

  /** Typing in the store-name field. */
  function EditStoreName(d: ReceiptDraft, text: string): (r: ReceiptDraft)
    ensures r.storeName == text && r == d.(storeName := r.storeName)
  {
    d.(storeName := text)
  }

  /** Typing in the total field: `parseFloat(text) || 0`. */
  function EditTotal(d: ReceiptDraft, text: string): (r: ReceiptDraft)
    ensures ParseFloat(text).Some? ==> r.total == ParseFloat(text).value
    ensures ParseFloat(text).None? ==> r.total == 0.0
    ensures r == d.(total := r.total)
  {
    d.(total := ParseFloatOrZero(text))
  }

  /** "+ Add Item": one blank row at the end. */
  function AddItem(d: ReceiptDraft): (r: ReceiptDraft)
    ensures |r.items| == |d.items| + 1 && r.items[..|d.items|] == d.items
    ensures r.items[|d.items|] == BlankItem
    ensures r == d.(items := r.items)
  {
    d.(items := d.items + [BlankItem])
  }

  /** Copies the rows into a fresh array, as `[...receiptData.items]` does. */
  method CopyItems(items: seq<DraftItem>) returns (a: array<DraftItem>)
    ensures fresh(a) && a[..] == items
  {
    a := new DraftItem[|items|](i requires 0 <= i < |items| => items[i]);
  }

  /** Typing in row `index`'s name field. */
  method EditItemName(d: ReceiptDraft, index: nat, text: string) returns (r: ReceiptDraft)
    requires index < |d.items|
    ensures |r.items| == |d.items| && r.items[index] == d.items[index].(name := text)
    ensures forall j :: 0 <= j < |d.items| && j != index ==> r.items[j] == d.items[j]
    ensures r == d.(items := r.items)
  {
    var newItems := CopyItems(d.items);
    newItems[index] := newItems[index].(name := text);
    r := d.(items := newItems[..]);
  }

  /** Typing in row `index`'s price field: `parseFloat(text) || 0`. */
  method EditItemPrice(d: ReceiptDraft, index: nat, text: string) returns (r: ReceiptDraft)
    requires index < |d.items|
    ensures |r.items| == |d.items|
    ensures r.items[index] == d.items[index].(totalPrice := r.items[index].totalPrice)
    ensures ParseFloat(text).Some? ==> r.items[index].totalPrice == ParseFloat(text).value
    ensures ParseFloat(text).None? ==> r.items[index].totalPrice == 0.0
    ensures forall j :: 0 <= j < |d.items| && j != index ==> r.items[j] == d.items[j]
    ensures r == d.(items := r.items)
  {
    var newItems := CopyItems(d.items);
    newItems[index] := newItems[index].(totalPrice := ParseFloatOrZero(text));
    r := d.(items := newItems[..]);
  }
}
