/**
 * The two regular expressions of the receipt parser, written as node lists,
 * and what they match, worked out once in plain terms:
 *
 *   item:  /(.+?)\s+\$?(\d+\.?\d{2})/g
 *   total: /total[:\s]+\$?(\d+\.?\d*)/i
 *
 * `ItemHitAt` and `TotalHitAt` say directly where a match at a given
 * position ends and what its groups hold; the lemmas prove that the
 * backtracking semantics of `EcmaRegex` gives exactly those matches.
 */
module ScanPatterns {
  import opened Wrappers
  import opened JsText
  import opened EcmaRegex

  // ---------------------------------------------------------------------------
  // The item pattern, one suffix per constant
  // ---------------------------------------------------------------------------

  const ItemP9: seq<Node> := [Close(2)]
  /** `\d{2}` */
  const ItemP8: seq<Node> := [Repeat(Digit, 2, Some(2), true)] + ItemP9
  /** `\.?` */
  const ItemP7: seq<Node> := [Repeat(Char('.'), 0, Some(1), true)] + ItemP8
  /** `\d+` */
  const ItemP6: seq<Node> := [Repeat(Digit, 1, None, true)] + ItemP7
  const ItemP5: seq<Node> := [Open(2)] + ItemP6
  /** `\$?` */
  const ItemP4: seq<Node> := [Repeat(Char('$'), 0, Some(1), true)] + ItemP5
  /** `\s+` */
  const ItemP3: seq<Node> := [Repeat(Whitespace, 1, None, true)] + ItemP4
  const ItemP2: seq<Node> := [Close(1)] + ItemP3
  /** `.+?` */
  const ItemP1: seq<Node> := [Repeat(NonLineTerminator, 1, None, false)] + ItemP2
  /** `(.+?)\s+\$?(\d+\.?\d{2})` */
  const ItemPattern: seq<Node> := [Open(1)] + ItemP1

  // ---------------------------------------------------------------------------
  // The total pattern
  // ---------------------------------------------------------------------------

  const TotalP11: seq<Node> := [Close(1)]
  /** `\d*` */
  const TotalP10: seq<Node> := [Repeat(Digit, 0, None, true)] + TotalP11
  /** `\.?` */
  const TotalP9: seq<Node> := [Repeat(Char('.'), 0, Some(1), true)] + TotalP10
  /** `\d+` */
  const TotalP8: seq<Node> := [Repeat(Digit, 1, None, true)] + TotalP9
  const TotalP7: seq<Node> := [Open(1)] + TotalP8
  /** `\$?` */
  const TotalP6: seq<Node> := [Repeat(Char('$'), 0, Some(1), true)] + TotalP7
  /** `[:\s]+` */
  const TotalP5: seq<Node> := [Repeat(ColonOrSpace, 1, None, true)] + TotalP6
  const TotalP4: seq<Node> := [Once(CharIgnoringCase('l'))] + TotalP5
  const TotalP3: seq<Node> := [Once(CharIgnoringCase('a'))] + TotalP4
  const TotalP2: seq<Node> := [Once(CharIgnoringCase('t'))] + TotalP3
  const TotalP1: seq<Node> := [Once(CharIgnoringCase('o'))] + TotalP2
  /** `total[:\s]+\$?(\d+\.?\d*)` under the `i` flag */
  const TotalPattern: seq<Node> := [Once(CharIgnoringCase('t'))] + TotalP1

  const ColonOrSpace: CharClass := Union(Char(':'), Whitespace)

  lemma ColonOrSpaceIs(c: char)
    ensures InClass(ColonOrSpace, c) <==> c == ':' || IsSpace(c)
  {
    assert ColonOrSpace == Union(Char(':'), Whitespace);
  }

  // ---------------------------------------------------------------------------
  // What the patterns match, in plain terms
  // ---------------------------------------------------------------------------

  /** Where the digits of a price start once an optional `$` at `q` is taken. */
  function PriceStart(s: string, q: nat): (r: nat)
    requires q <= |s|
    ensures r <= |s|
    ensures r == q || (r == q + 1 && s[q] == '$')
  {
    if q < |s| && s[q] == '$' then q + 1 else q
  }

  /** A `.` at `j` followed by at least two digits. */
  predicate DecimalTail(s: string, j: nat)
    requires j <= |s|
  {
    j < |s| && s[j] == '.' && Run(Digit, s, j + 1) >= 2
  }

  /**
   * End of `\d+\.?\d{2}` matched at `r`: all digits, a point and two more
   * when that follows; otherwise, with three or more digits, the whole run
   * (the last two digits serving as `\d{2}`).
   */
  function PriceEnd(s: string, r: nat): (e: Option<nat>)
    requires r <= |s|
    ensures e.Some? ==> r + 3 <= e.value <= |s|
  {
    var k := Run(Digit, s, r);
    if k >= 1 && DecimalTail(s, r + k) then Some(r + k + 3)
    else if k >= 3 then Some(r + k)
    else None
  }

  /** Start and end of the price group when `\s+\$?(\d+\.?\d{2})` matches at `p`. */
  function PriceAfter(s: string, p: nat): (r: Option<(nat, nat)>)
    requires p <= |s|
    ensures r.Some? ==> p < r.value.0 && r.value.0 + 3 <= r.value.1 <= |s|
    ensures r.Some? ==> PriceEnd(s, r.value.0) == Some(r.value.1)
  {
    var w := Run(Whitespace, s, p);
    if w == 0 then None
    else
      var q := PriceStart(s, p + w);
      match PriceEnd(s, q)
      case None => None
      case Some(e) => Some((q, e))
  }

  /** The first position in `[j, last]` after which a price follows: where a lazy name ends. */
  function LazyNameEnd(s: string, j: nat, last: nat): (r: Option<nat>)
    requires j <= last <= |s|
    ensures r.Some? ==> j <= r.value <= last && PriceAfter(s, r.value).Some?
    decreases last - j
  {
    if PriceAfter(s, j).Some? then Some(j)
    else if j == last then None
    else LazyNameEnd(s, j + 1, last)
  }

  /** A match of the item pattern: the name is `s[start..nameEnd]`, the price `s[priceStart..end]`. */
  datatype ItemHit = ItemHit(nameEnd: nat, priceStart: nat, end: nat)

  /** The item pattern's match at `i`, if any. */
  function ItemHitAt(s: string, i: nat): (r: Option<ItemHit>)
    requires i <= |s|
    ensures r.Some? ==> i < r.value.nameEnd < r.value.priceStart && r.value.priceStart + 3 <= r.value.end <= |s|
    ensures r.Some? ==> r.value.nameEnd <= i + Run(NonLineTerminator, s, i)
    ensures r.Some? ==> PriceEnd(s, r.value.priceStart) == Some(r.value.end)
  {
    var h := Run(NonLineTerminator, s, i);
    if h == 0 then None
    else
      match LazyNameEnd(s, i + 1, i + h)
      case None => None
      case Some(e) =>
        var pr := PriceAfter(s, e);
        Some(ItemHit(e, pr.value.0, pr.value.1))
  }

  /** The state the item pattern reaches for a hit at `i`. */
  function ItemState(i: nat, h: ItemHit): State {
    State(h.end, map[1 := (i, h.nameEnd), 2 := (h.priceStart, h.end)])
  }

  /** `m` is the item pattern's match at `m.start`, with the groups `ItemHitAt` gives. */
  predicate IsItemMatch(s: string, m: Match) {
    m.start <= |s| && ItemHitAt(s, m.start).Some?
    && m == Match(m.start, ItemHitAt(s, m.start).value.end, ItemState(m.start, ItemHitAt(s, m.start).value).caps)
  }

  /** Leftmost item hit at or after `p`. */
  function ItemSearch(s: string, p: nat): (r: Option<Match>)
    requires p <= |s|
    ensures r.Some? ==> p <= r.value.start && IsItemMatch(s, r.value)
    decreases |s| - p
  {
    match ItemHitAt(s, p)
    case Some(h) => Some(Match(p, h.end, ItemState(p, h).caps))
    case None => if p == |s| then None else ItemSearch(s, p + 1)
  }

  /** End of `\d+\.?\d*` at `r`: the digits, and a point with any digits after it. */
  function NumberEnd(s: string, r: nat): (e: nat)
    requires r <= |s|
    ensures r <= e <= |s|
  {
    var k := Run(Digit, s, r);
    if r + k < |s| && s[r + k] == '.' then r + k + 1 + Run(Digit, s, r + k + 1) else r + k
  }

  /** The word `total` in any letter case at `i`. */
  predicate TotalWordAt(s: string, i: nat) {
    i + 5 <= |s|
    && Upper(s[i]) == 'T' && Upper(s[i + 1]) == 'O' && Upper(s[i + 2]) == 'T'
    && Upper(s[i + 3]) == 'A' && Upper(s[i + 4]) == 'L'
  }

  /** Start and end of the number group when `[:\s]+\$?(\d+\.?\d*)` matches at `p`. */
  function NumberAfter(s: string, p: nat): (r: Option<(nat, nat)>)
    requires p <= |s|
    ensures r.Some? ==> p < r.value.0 < r.value.1 <= |s|
    ensures r.Some? ==> Run(Digit, s, r.value.0) >= 1 && r.value.1 == NumberEnd(s, r.value.0)
  {
    var w := Run(ColonOrSpace, s, p);
    if w == 0 then None
    else
      var q := PriceStart(s, p + w);
      if Run(Digit, s, q) == 0 then None
      else Some((q, NumberEnd(s, q)))
  }

  /** Start and end of the number group when the total pattern matches at `i`. */
  function TotalHitAt(s: string, i: nat): (r: Option<(nat, nat)>)
    requires i <= |s|
    ensures r.Some? ==> i + 5 < r.value.0 < r.value.1 <= |s|
    ensures r.Some? ==> Run(Digit, s, r.value.0) >= 1 && r.value.1 == NumberEnd(s, r.value.0)
  {
    if TotalWordAt(s, i) then NumberAfter(s, i + 5) else None
  }

  /** Leftmost total hit at or after `p`. */
  function TotalSearch(s: string, p: nat): (r: Option<Match>)
    requires p <= |s|
    ensures r.Some? ==> p <= r.value.start <= |s| && TotalHitAt(s, r.value.start).Some?
    ensures r.Some? ==> r.value.caps == map[1 := TotalHitAt(s, r.value.start).value]
    decreases |s| - p
  {
    match TotalHitAt(s, p)
    case Some(g) => Some(Match(p, g.1, map[1 := g]))
    case None => if p == |s| then None else TotalSearch(s, p + 1)
  }
}
