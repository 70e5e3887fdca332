/**
 * Proofs that the backtracking matcher of `EcmaRegex`, run on the receipt
 * parser's two patterns, produces exactly the matches `ScanPatterns`
 * describes.  Each lemma handles one suffix of a pattern, working from the
 * last node back to the first, so every backtracking choice is settled once.
 */
module ScanPatternFacts {
  import opened Wrappers
  import opened JsText
  import opened EcmaRegex
  import opened ScanPatterns

  // ---------------------------------------------------------------------------
  // Item pattern: (.+?)\s+\$?(\d+\.?\d{2})
  // ---------------------------------------------------------------------------

  lemma ItemP9Match(s: string, j: nat, caps: Captures)
    requires j <= |s| && 2 in caps
    ensures MatchAt(ItemP9, s, j, caps) == Some(State(j, caps[2 := (caps[2].0, j)]))
  {
    CloseStep(2, [], s, j, caps);
  }

  /** `\d{2}` takes exactly two digits. */
  lemma ItemP8Match(s: string, j: nat, caps: Captures)
    requires j <= |s| && 2 in caps
    ensures MatchAt(ItemP8, s, j, caps) ==
      if Run(Digit, s, j) >= 2 then Some(State(j + 2, caps[2 := (caps[2].0, j + 2)])) else None
  {
    ExactStep(Digit, 2, ItemP9, s, j, caps);
    if Run(Digit, s, j) >= 2 {
      ItemP9Match(s, j + 2, caps);
    }
  }

  /** `\.?\d{2}`: a point and two digits, or else two digits. */
  lemma ItemP7Match(s: string, j: nat, caps: Captures)
    requires j <= |s| && 2 in caps
    ensures MatchAt(ItemP7, s, j, caps) ==
      if DecimalTail(s, j) then Some(State(j + 3, caps[2 := (caps[2].0, j + 3)]))
      else if Run(Digit, s, j) >= 2 then Some(State(j + 2, caps[2 := (caps[2].0, j + 2)]))
      else None
  {
    OptionalStep(Char('.'), ItemP8, s, j, caps);
    ItemP8Match(s, j, caps);
    if j < |s| && s[j] == '.' {
      ItemP8Match(s, j + 1, caps);
      assert Run(Digit, s, j) == 0;
    }
  }

  /** `\d+\.?\d{2}` at `r` ends where `PriceEnd` says. */
  lemma ItemP6Match(s: string, r: nat, caps: Captures)
    requires r <= |s| && 2 in caps
    ensures MatchAt(ItemP6, s, r, caps) ==
      match PriceEnd(s, r)
      case None => None
      case Some(e) => Some(State(e, caps[2 := (caps[2].0, e)]))
  {
    GreedyStep(Digit, 1, ItemP7, s, r, caps);
    if Run(Digit, s, r) >= 1 {
      ItemPriceDigits(s, r, caps);
    }
  }

  /** The greedy `\d+` over the whole digit run, then `\.?\d{2}`, ends where `PriceEnd` says. */
  lemma ItemPriceDigits(s: string, r: nat, caps: Captures)
    requires r <= |s| && 2 in caps && Run(Digit, s, r) >= 1
    ensures Greedy(ItemP7, s, r, caps, 1, Run(Digit, s, r)) ==
      match PriceEnd(s, r)
      case None => None
      case Some(e) => Some(State(e, caps[2 := (caps[2].0, e)]))
  {
    var k := Run(Digit, s, r);
    if DecimalTail(s, r + k) {
      assert PriceEnd(s, r) == Some(r + k + 3);
      PriceDigitsDecimal(s, r, caps, k);
    } else {
      assert PriceEnd(s, r) == if k >= 3 then Some(r + k) else None;
      PriceDigitsWhole(s, r, caps, k);
    }
  }

  /** A decimal tail after the digit run: `\d+` keeps the whole run. */
  lemma PriceDigitsDecimal(s: string, r: nat, caps: Captures, k: nat)
    requires r <= |s| && 2 in caps && k == Run(Digit, s, r) && k >= 1 && DecimalTail(s, r + k)
    ensures Greedy(ItemP7, s, r, caps, 1, k) == Some(State(r + k + 3, caps[2 := (caps[2].0, r + k + 3)]))
  {
    ItemP7Match(s, r + k, caps);
    GreedyStops(ItemP7, s, r, caps, 1, k);
  }

  /** No decimal tail: `\d+` gives back two digits for `\d{2}`, which needs three in all. */
  lemma PriceDigitsWhole(s: string, r: nat, caps: Captures, k: nat)
    requires r <= |s| && 2 in caps && k == Run(Digit, s, r) && k >= 1 && !DecimalTail(s, r + k)
    ensures Greedy(ItemP7, s, r, caps, 1, k) == if k >= 3 then Some(State(r + k, caps[2 := (caps[2].0, r + k)])) else None
  {
    RunShift(Digit, s, r, k);
    ItemP7Match(s, r + k, caps);
    if k == 1 {
      GreedyStops(ItemP7, s, r, caps, 1, k);
    } else {
      GreedyBacksOff(ItemP7, s, r, caps, 1, k);
      ItemPriceGivesBack(s, r, caps, k);
    }
  }

  /** Giving back digits of a run that no decimal tail follows: two must be left for `\d{2}`. */
  lemma ItemPriceGivesBack(s: string, r: nat, caps: Captures, k: nat)
    requires r <= |s| && 2 in caps && k == Run(Digit, s, r) && k >= 2
    ensures Greedy(ItemP7, s, r, caps, 1, k - 1) ==
      if k >= 3 then Some(State(r + k, caps[2 := (caps[2].0, r + k)])) else None
  {
    RunShift(Digit, s, r, k - 1);
    ItemP7Match(s, r + k - 1, caps);
    if k == 2 {
      GreedyStops(ItemP7, s, r, caps, 1, 1);
    } else {
      GreedyBacksOff(ItemP7, s, r, caps, 1, k - 1);
      RunShift(Digit, s, r, k - 2);
      ItemP7Match(s, r + k - 2, caps);
      GreedyStops(ItemP7, s, r, caps, 1, k - 2);
    }
  }

  /** Opening group 2 at `r` records its start. */
  lemma ItemP5Match(s: string, r: nat, caps: Captures)
    requires r <= |s|
    ensures MatchAt(ItemP5, s, r, caps) ==
      match PriceEnd(s, r)
      case None => None
      case Some(e) => Some(State(e, caps[2 := (r, e)]))
  {
    OpenStep(2, ItemP6, s, r, caps);
    ItemP6Match(s, r, caps[2 := (r, r)]);
    if PriceEnd(s, r).Some? {
      var e := PriceEnd(s, r).value;
      assert caps[2 := (r, r)][2 := (r, e)] == caps[2 := (r, e)];
    }
  }

  /** `\$?` takes a dollar sign when there is one and never gives it back. */
  lemma ItemP4Match(s: string, q: nat, caps: Captures)
    requires q <= |s|
    ensures MatchAt(ItemP4, s, q, caps) ==
      var r := PriceStart(s, q);
      match PriceEnd(s, r)
      case None => None
      case Some(e) => Some(State(e, caps[2 := (r, e)]))
  {
    OptionalStep(Char('$'), ItemP5, s, q, caps);
    ItemP5Match(s, q, caps);
    if q < |s| && s[q] == '$' {
      ItemP5Match(s, q + 1, caps);
    }
  }

  /** Stopping `\s+` inside a white-space run leaves no price to match. */
  lemma {:induction false} ItemSpacesGiveBack(s: string, p: nat, caps: Captures, c: nat)
    requires p <= |s| && 1 <= c < Run(Whitespace, s, p)
    ensures Greedy(ItemP4, s, p, caps, 1, c).None?
    decreases c
  {
    ItemP4Match(s, p + c, caps);
    RunChars(Whitespace, s, p, p + c);
    assert Run(Digit, s, p + c) == 0;
    if c > 1 {
      ItemSpacesGiveBack(s, p, caps, c - 1);
    }
  }

  /** `\s+\$?(\d+\.?\d{2})` at `p`: the white space is taken whole. */
  lemma ItemP3Match(s: string, p: nat, caps: Captures)
    requires p <= |s|
    ensures MatchAt(ItemP3, s, p, caps) ==
      match PriceAfter(s, p)
      case None => None
      case Some(g) => Some(State(g.1, caps[2 := g]))
  {
    GreedyStep(Whitespace, 1, ItemP4, s, p, caps);
    var w := Run(Whitespace, s, p);
    if w >= 1 {
      if w > 1 {
        ItemSpacesGiveBack(s, p, caps, w - 1);
      }
      GreedyTopOrNone(ItemP4, s, p, caps, 1, w);
      ItemP4Match(s, p + w, caps);
    }
  }

  /** Closing group 1 at `p` records the end of the name. */
  lemma ItemP2Match(s: string, p: nat, caps: Captures)
    requires p <= |s| && 1 in caps
    ensures MatchAt(ItemP2, s, p, caps) ==
      match PriceAfter(s, p)
      case None => None
      case Some(g) => Some(State(g.1, caps[1 := (caps[1].0, p)][2 := g]))
  {
    CloseStep(1, ItemP3, s, p, caps);
    ItemP3Match(s, p, caps[1 := (caps[1].0, p)]);
  }

  /** The lazy `.+?`, having taken `c` characters, ends the name where `LazyNameEnd` says. */
  lemma {:induction false} ItemLazyName(s: string, i: nat, caps: Captures, c: nat, h: nat)
    requires c <= h && i + h <= |s| && 1 in caps
    ensures Lazy(ItemP2, s, i, caps, c, h) ==
      match LazyNameEnd(s, i + c, i + h)
      case None => None
      case Some(n) => Some(State(PriceAfter(s, n).value.1, caps[1 := (caps[1].0, n)][2 := PriceAfter(s, n).value]))
    decreases h - c
  {
    ItemP2Match(s, i + c, caps);
    if PriceAfter(s, i + c).None? && c < h {
      ItemLazyName(s, i, caps, c + 1, h);
    }
  }

  /** The item pattern opens group 1 and hands over to the lazy name. */
  lemma ItemPatternStart(s: string, i: nat)
    requires i <= |s|
    ensures MatchAt(ItemPattern, s, i, map[]) ==
      if Run(NonLineTerminator, s, i) < 1 then None
      else Lazy(ItemP2, s, i, map[1 := (i, i)], 1, Run(NonLineTerminator, s, i))
  {
    OpenStep(1, ItemP1, s, i, map[]);
    assert map[][1 := (i, i)] == map[1 := (i, i)];
    LazyStep(NonLineTerminator, 1, ItemP2, s, i, map[1 := (i, i)]);
  }

  /** At a single position, the backtracking matcher finds exactly `ItemHitAt`. */
  lemma ItemMatchAt(s: string, i: nat)
    requires i <= |s|
    ensures MatchAt(ItemPattern, s, i, map[]) ==
      match ItemHitAt(s, i)
      case None => None
      case Some(h) => Some(ItemState(i, h))
  {
    ItemPatternStart(s, i);
    if Run(NonLineTerminator, s, i) >= 1 {
      ItemLazyAgrees(s, i);
    }
  }

  /** The lazy name loop, started after one character, finds exactly `ItemHitAt`. */
  lemma ItemLazyAgrees(s: string, i: nat)
    requires i <= |s| && Run(NonLineTerminator, s, i) >= 1
    ensures Lazy(ItemP2, s, i, map[1 := (i, i)], 1, Run(NonLineTerminator, s, i)) ==
      match ItemHitAt(s, i)
      case None => None
      case Some(h) => Some(ItemState(i, h))
  {
    var caps := map[1 := (i, i)];
    ItemLazyName(s, i, caps, 1, Run(NonLineTerminator, s, i));
    LazyResultIsHit(s, i, caps, Lazy(ItemP2, s, i, caps, 1, Run(NonLineTerminator, s, i)));
  }

  /** A result shaped as the lazy name loop's is the state of `ItemHitAt`. */
  lemma LazyResultIsHit(s: string, i: nat, caps: Captures, x: Option<State>)
    requires i <= |s| && Run(NonLineTerminator, s, i) >= 1 && caps == map[1 := (i, i)]
    requires x ==
      match LazyNameEnd(s, i + 1, i + Run(NonLineTerminator, s, i))
      case None => None
      case Some(n) => Some(State(PriceAfter(s, n).value.1, caps[1 := (caps[1].0, n)][2 := PriceAfter(s, n).value]))
    ensures x ==
      match ItemHitAt(s, i)
      case None => None
      case Some(h) => Some(ItemState(i, h))
  {
    ItemHitFromLazyName(s, i);
  }

  /** `ItemHitAt` in terms of the end of the lazy name. */
  lemma ItemHitFromLazyName(s: string, i: nat)
    requires i <= |s| && Run(NonLineTerminator, s, i) >= 1
    ensures
      var n := LazyNameEnd(s, i + 1, i + Run(NonLineTerminator, s, i));
      n.None? ==> ItemHitAt(s, i).None?
    ensures
      var n := LazyNameEnd(s, i + 1, i + Run(NonLineTerminator, s, i));
      n.Some? ==>
        (ItemHitAt(s, i).Some?
         && ItemState(i, ItemHitAt(s, i).value) ==
            State(PriceAfter(s, n.value).value.1, map[1 := (i, i)][1 := (i, n.value)][2 := PriceAfter(s, n.value).value]))
  {
    var n := LazyNameEnd(s, i + 1, i + Run(NonLineTerminator, s, i));
    if n.Some? {
      var g := PriceAfter(s, n.value).value;
      ItemCaptures(i, n.value, g);
    }
  }

  /** Group 1 opened at `i` and closed at `n`, then group 2 captured as `g`. */
  lemma ItemCaptures(i: nat, n: nat, g: (nat, nat))
    ensures map[1 := (i, i)][1 := (i, n)][2 := g] == ItemState(i, ItemHit(n, g.0, g.1)).caps
  {
    var m := map[1 := (i, i)][1 := (i, n)][2 := g];
    assert m.Keys == {1, 2};
  }

  /** `exec` with the item pattern from `p` is `ItemSearch` from `p`. */
  lemma {:induction false} ItemSearchAgrees(s: string, p: nat)
    requires p <= |s|
    ensures SearchFrom(ItemPattern, s, p) == ItemSearch(s, p)
    decreases |s| - p
  {
    ItemMatchAt(s, p);
    if ItemHitAt(s, p).None? && p < |s| {
      ItemSearchAgrees(s, p + 1);
    }
  }

  // ---------------------------------------------------------------------------
  // Total pattern: total[:\s]+\$?(\d+\.?\d*), case-insensitive
  // ---------------------------------------------------------------------------

  /** `\d*` takes the whole run, then group 1 closes. */
  lemma TotalP10Match(s: string, j: nat, caps: Captures)
    requires j <= |s| && 1 in caps
    ensures MatchAt(TotalP10, s, j, caps) ==
      Some(State(j + Run(Digit, s, j), caps[1 := (caps[1].0, j + Run(Digit, s, j))]))
  {
    var m := Run(Digit, s, j);
    GreedyStep(Digit, 0, TotalP11, s, j, caps);
    CloseStep(1, [], s, j + m, caps);
    GreedyStops(TotalP11, s, j, caps, 0, m);
  }

  /** `\.?\d*`: a point and its digits when there is a point. */
  lemma TotalP9Match(s: string, j: nat, caps: Captures)
    requires j <= |s| && 1 in caps
    ensures MatchAt(TotalP9, s, j, caps) ==
      var e := if j < |s| && s[j] == '.' then j + 1 + Run(Digit, s, j + 1) else j + Run(Digit, s, j);
      Some(State(e, caps[1 := (caps[1].0, e)]))
  {
    OptionalStep(Char('.'), TotalP10, s, j, caps);
    TotalP10Match(s, j, caps);
    if j < |s| && s[j] == '.' {
      TotalP10Match(s, j + 1, caps);
    }
  }

  /** `\d+\.?\d*` at `r` ends at `NumberEnd`; the digits are never given back. */
  lemma TotalP8Match(s: string, r: nat, caps: Captures)
    requires r <= |s| && 1 in caps
    ensures MatchAt(TotalP8, s, r, caps) ==
      if Run(Digit, s, r) == 0 then None
      else Some(State(NumberEnd(s, r), caps[1 := (caps[1].0, NumberEnd(s, r))]))
  {
    GreedyStep(Digit, 1, TotalP9, s, r, caps);
    if Run(Digit, s, r) >= 1 {
      TotalNumberDigits(s, r, caps);
    }
  }

  /** The greedy `\d+` keeps the whole digit run, since `\.?\d*` always matches after it. */
  lemma TotalNumberDigits(s: string, r: nat, caps: Captures)
    requires r <= |s| && 1 in caps && Run(Digit, s, r) >= 1
    ensures Greedy(TotalP9, s, r, caps, 1, Run(Digit, s, r)) ==
      Some(State(NumberEnd(s, r), caps[1 := (caps[1].0, NumberEnd(s, r))]))
  {
    var k := Run(Digit, s, r);
    RunShift(Digit, s, r, k);
    TotalP9Match(s, r + k, caps);
    GreedyStops(TotalP9, s, r, caps, 1, k);
  }

  /** Opening group 1 at `r` records its start. */
  lemma TotalP7Match(s: string, r: nat, caps: Captures)
    requires r <= |s|
    ensures MatchAt(TotalP7, s, r, caps) ==
      if Run(Digit, s, r) == 0 then None
      else Some(State(NumberEnd(s, r), caps[1 := (r, NumberEnd(s, r))]))
  {
    OpenStep(1, TotalP8, s, r, caps);
    TotalP8Match(s, r, caps[1 := (r, r)]);
    assert caps[1 := (r, r)][1 := (r, NumberEnd(s, r))] == caps[1 := (r, NumberEnd(s, r))];
  }

  /** `\$?` before the number takes a dollar sign when there is one. */
  lemma TotalP6Match(s: string, q: nat, caps: Captures)
    requires q <= |s|
    ensures MatchAt(TotalP6, s, q, caps) ==
      var r := PriceStart(s, q);
      if Run(Digit, s, r) == 0 then None
      else Some(State(NumberEnd(s, r), caps[1 := (r, NumberEnd(s, r))]))
  {
    OptionalStep(Char('$'), TotalP6[1..], s, q, caps);
    assert TotalP6[1..] == TotalP7;
    TotalP7Match(s, q, caps);
    if q < |s| && s[q] == '$' {
      TotalP7Match(s, q + 1, caps);
    }
  }

  /** Stopping `[:\s]+` inside its run leaves no number to match. */
  lemma {:induction false} TotalSeparatorGivesBack(s: string, p: nat, caps: Captures, c: nat)
    requires p <= |s| && 1 <= c < Run(ColonOrSpace, s, p)
    ensures Greedy(TotalP6, s, p, caps, 1, c).None?
    decreases c
  {
    TotalP6Match(s, p + c, caps);
    RunChars(ColonOrSpace, s, p, p + c);
    ColonOrSpaceIs(s[p + c]);
    assert !IsDigit(s[p + c]) && s[p + c] != '$';
    if c > 1 {
      TotalSeparatorGivesBack(s, p, caps, c - 1);
    }
  }

  /** `[:\s]+\$?(\d+\.?\d*)` at `p` matches as `NumberAfter` says. */
  lemma TotalP5Match(s: string, p: nat)
    requires p <= |s|
    ensures MatchAt(TotalP5, s, p, map[]) ==
      match NumberAfter(s, p)
      case None => None
      case Some(g) => Some(State(g.1, map[1 := g]))
  {
    GreedyStep(ColonOrSpace, 1, TotalP6, s, p, map[]);
    var w := Run(ColonOrSpace, s, p);
    if w >= 1 {
      TotalP6Match(s, p + w, map[]);
      if NumberAfter(s, p).Some? {
        GreedyStops(TotalP6, s, p, map[], 1, w);
        var g := NumberAfter(s, p).value;
        assert map[][1 := g] == map[1 := g];
      } else if w > 1 {
        GreedyBacksOff(TotalP6, s, p, map[], 1, w);
        TotalSeparatorGivesBack(s, p, map[], w - 1);
      } else {
        GreedyStops(TotalP6, s, p, map[], 1, w);
      }
    }
  }

  /** The five letters of `total`, each compared without regard to case. */
  lemma TotalWordMatch(s: string, i: nat)
    requires i <= |s|
    ensures MatchAt(TotalPattern, s, i, map[]) ==
      if TotalWordAt(s, i) then MatchAt(TotalP5, s, i + 5, map[]) else None
  {
    ExactStep(CharIgnoringCase('t'), 1, TotalP1, s, i, map[]);
    if Run(CharIgnoringCase('t'), s, i) >= 1 {
      ExactStep(CharIgnoringCase('o'), 1, TotalP2, s, i + 1, map[]);
      if Run(CharIgnoringCase('o'), s, i + 1) >= 1 {
        ExactStep(CharIgnoringCase('t'), 1, TotalP3, s, i + 2, map[]);
        if Run(CharIgnoringCase('t'), s, i + 2) >= 1 {
          ExactStep(CharIgnoringCase('a'), 1, TotalP4, s, i + 3, map[]);
          if Run(CharIgnoringCase('a'), s, i + 3) >= 1 {
            ExactStep(CharIgnoringCase('l'), 1, TotalP5, s, i + 4, map[]);
          }
        }
      }
    }
  }

  /** At a single position, the backtracking matcher finds exactly `TotalHitAt`. */
  lemma TotalMatchAt(s: string, i: nat)
    requires i <= |s|
    ensures MatchAt(TotalPattern, s, i, map[]) ==
      match TotalHitAt(s, i)
      case None => None
      case Some(g) => Some(State(g.1, map[1 := g]))
  {
    TotalWordMatch(s, i);
    if TotalWordAt(s, i) {
      TotalP5Match(s, i + 5);
    }
  }

  /** `String.prototype.match` with the total pattern is `TotalSearch` from 0. */
  lemma {:induction false} TotalSearchAgrees(s: string, p: nat)
    requires p <= |s|
    ensures SearchFrom(TotalPattern, s, p) == TotalSearch(s, p)
    decreases |s| - p
  {
    TotalMatchAt(s, p);
    if TotalHitAt(s, p).None? && p < |s| {
      TotalSearchAgrees(s, p + 1);
    }
  }

  // ---------------------------------------------------------------------------
  // What the captured texts look like and what `parseFloat` makes of them
  // ---------------------------------------------------------------------------

  /** The characters of a digit run are digits, and the run stops at a non-digit. */
  lemma {:induction false} DigitRun(s: string, q: nat)
    requires q <= |s|
    ensures AllDigits(s[q..q + Run(Digit, s, q)])
    ensures q + Run(Digit, s, q) == |s| || !IsDigit(s[q + Run(Digit, s, q)])
    decreases |s| - q
  {
    if q < |s| && IsDigit(s[q]) {
      DigitRun(s, q + 1);
      var n := Run(Digit, s, q + 1);
      assert s[q..q + 1 + n] == [s[q]] + s[q + 1..q + 1 + n];
    }
  }

  /** A price as `\d+\.?\d{2}` captures it: three or more digits, or digits, a point and two digits. */
  predicate PriceText(t: string) {
    (|t| >= 3 && AllDigits(t))
    || (|t| >= 4 && AllDigits(t[..|t| - 3]) && t[|t| - 3] == '.' && AllDigits(t[|t| - 2..]))
  }

  /** The amount a price text denotes, in cents. */
  function PriceCents(t: string): nat
    requires PriceText(t)
  {
    if AllDigits(t) then DigitsValue(t) * 100
    else DigitsValue(t[..|t| - 3]) * 100 + DigitsValue(t[|t| - 2..])
  }

  /** The price group of an item match is a price text. */
  lemma PriceEndText(s: string, r: nat)
    requires r <= |s| && PriceEnd(s, r).Some?
    ensures PriceText(s[r..PriceEnd(s, r).value])
  {
    var k := Run(Digit, s, r);
    DigitRun(s, r);
    if k >= 1 && DecimalTail(s, r + k) {
      RunChars(Digit, s, r + k + 1, r + k + 1);
      RunChars(Digit, s, r + k + 1, r + k + 2);
      PriceEndDecimal(s, r, k);
    } else {
      assert s[r..PriceEnd(s, r).value] == s[r..r + k];
    }
  }

  /** Digits at `r`, a point and two digits: the price text ends after the two digits. */
  lemma PriceEndDecimal(s: string, r: nat, k: nat)
    requires 1 <= k && r + k + 3 <= |s| && AllDigits(s[r..r + k])
    requires s[r + k] == '.' && IsDigit(s[r + k + 1]) && IsDigit(s[r + k + 2])
    ensures PriceText(s[r..r + k + 3])
  {
    var t := s[r..r + k + 3];
    assert t[..k] == s[r..r + k];
    PriceTextOfDecimal(t, k);
  }

  /** Digits, a point and two digits make a price text. */
  lemma PriceTextOfDecimal(t: string, k: nat)
    requires 1 <= k && |t| == k + 3 && AllDigits(t[..k])
    requires t[k] == '.' && IsDigit(t[k + 1]) && IsDigit(t[k + 2])
    ensures PriceText(t)
  {
    assert t[..|t| - 3] == t[..k];
    assert t[|t| - 2..] == [t[k + 1], t[k + 2]];
  }

  /** `parseFloat` reads a price text exactly: a whole number of cents. */
  lemma PriceTextParses(t: string)
    requires PriceText(t)
    ensures ParseFloat(t) == Some(PriceCents(t) as real / 100.0)
  {
    ParseFloatOfDigitStart(t);
    PriceTextUnsigned(t);
  }

  lemma PriceTextUnsigned(t: string)
    requires PriceText(t)
    ensures ParseUnsigned(t) == Some(PriceCents(t) as real / 100.0)
  {
    if AllDigits(t) {
      ParseUnsignedDigits(t);
    } else {
      var k := |t| - 3;
      var f := t[|t| - 2..];
      assert t[k + 1..] == f;
      ParseUnsignedPoint(t, k);
      CentsSplit(DigitsValue(t[..k]), f);
    }
  }

  lemma CentsSplit(whole: nat, f: string)
    requires |f| == 2 && AllDigits(f)
    ensures whole as real + FractionValue(f) == (whole * 100 + DigitsValue(f)) as real / 100.0
  {
    assert Pow10(2) == 100;
  }

  /** A number as `\d+\.?\d*` captures it: digits, then optionally a point and any digits. */
  predicate NumberText(t: string) {
    var k := LeadingDigits(t);
    k >= 1 && (k == |t| || (t[k] == '.' && AllDigits(t[k + 1..])))
  }

  /** The value of a number text. */
  function NumberValue(t: string): real
    requires NumberText(t)
  {
    var k := LeadingDigits(t);
    DigitsValue(t[..k]) as real + (if k == |t| then 0.0 else FractionValue(t[k + 1..]))
  }

  /** The group of a total match is a number text. */
  lemma NumberEndText(s: string, q: nat)
    requires q <= |s| && Run(Digit, s, q) >= 1
    ensures NumberText(s[q..NumberEnd(s, q)])
  {
    var k := Run(Digit, s, q);
    if q + k < |s| && s[q + k] == '.' {
      var f := Run(Digit, s, q + k + 1);
      assert NumberEnd(s, q) == q + k + 1 + f;
      DigitRun(s, q);
      DigitRun(s, q + k + 1);
      NumberEndDecimal(s, q, k, f);
    } else {
      assert NumberEnd(s, q) == q + k;
      DigitRun(s, q);
      var t := s[q..q + k];
      assert t[..k] == t;
      NumberTextOfParts(t, k);
    }
  }

  /** Digits at `q`, a point and `f` more digits make a number text. */
  lemma NumberEndDecimal(s: string, q: nat, k: nat, f: nat)
    requires 1 <= k && q + k + 1 + f <= |s| && AllDigits(s[q..q + k])
    requires s[q + k] == '.' && AllDigits(s[q + k + 1..q + k + 1 + f])
    ensures NumberText(s[q..q + k + 1 + f])
  {
    var t := s[q..q + k + 1 + f];
    assert t[..k] == s[q..q + k];
    assert t[k + 1..] == s[q + k + 1..q + k + 1 + f];
    NumberTextOfParts(t, k);
  }

  /** Digits, optionally followed by a point and more digits, make a number text. */
  lemma NumberTextOfParts(t: string, k: nat)
    requires 1 <= k <= |t| && AllDigits(t[..k])
    requires k == |t| || (t[k] == '.' && AllDigits(t[k + 1..]))
    ensures NumberText(t)
  {
    LeadingDigitsIs(t, k);
  }

  /** `parseFloat` reads a number text exactly. */
  lemma NumberTextParses(t: string)
    requires NumberText(t)
    ensures ParseFloat(t) == Some(NumberValue(t))
  {
    ParseFloatOfDigitStart(t);
    NumberTextUnsigned(t);
  }

  lemma NumberTextUnsigned(t: string)
    requires NumberText(t)
    ensures ParseUnsigned(t) == Some(NumberValue(t))
  {
    var k := LeadingDigits(t);
    if k < |t| {
      ParseUnsignedPoint(t, k);
    } else {
      assert t[..k] == t;
      ParseUnsignedDigits(t);
    }
  }

  /** What `exec` with the item pattern returns from `p`. */
  lemma ItemExecFacts(s: string, p: nat)
    requires Exec(ItemPattern, s, p).Some?
    ensures p <= Exec(ItemPattern, s, p).value.start < Exec(ItemPattern, s, p).value.end
    ensures IsItemMatch(s, Exec(ItemPattern, s, p).value)
  {
    ItemSearchAgrees(s, p);
  }

  /** The two groups of an item match: the name and a price text. */
  lemma ItemGroups(s: string, m: Match)
    requires IsItemMatch(s, m)
    ensures Group(s, m, 1).Some? && Group(s, m, 2).Some?
    ensures Group(s, m, 1).value == s[m.start..ItemHitAt(s, m.start).value.nameEnd]
    ensures Group(s, m, 2).value == s[ItemHitAt(s, m.start).value.priceStart..m.end]
    ensures PriceText(Group(s, m, 2).value)
  {
    var h := ItemHitAt(s, m.start).value;
    assert m.caps == map[1 := (m.start, h.nameEnd), 2 := (h.priceStart, h.end)];
    PriceEndText(s, h.priceStart);
  }

  /** What `match` with the total pattern returns: a number text in group 1. */
  lemma TotalExecFacts(s: string)
    requires Exec(TotalPattern, s, 0).Some?
    ensures TotalHitAt(s, Exec(TotalPattern, s, 0).value.start).Some?
    ensures
      var g := TotalHitAt(s, Exec(TotalPattern, s, 0).value.start).value;
      Group(s, Exec(TotalPattern, s, 0).value, 1) == Some(s[g.0..g.1]) && NumberText(s[g.0..g.1])
  {
    TotalSearchAgrees(s, 0);
    var m := Exec(TotalPattern, s, 0).value;
    var g := TotalHitAt(s, m.start).value;
    assert m.caps == map[1 := g];
    NumberEndText(s, g.0);
  }
}
