/**
 * The fragment of ECMAScript regular expressions (ECMA-262, section 22.2)
 * that the receipt parser uses: a pattern is a flat list of nodes, each a
 * single-character class under a greedy or lazy quantifier, or the opening
 * or closing of a capture group.  Matching follows the backtracking
 * semantics of section 22.2.2: the rest of the node list plays the part of
 * the continuation, a greedy quantifier tries the largest count first and a
 * lazy one the smallest, and `exec` reports the leftmost position at which
 * the pattern matches.  A lone atom is a quantifier with minimum and maximum 1.
 */
module EcmaRegex {
  import opened Wrappers
  import opened JsText

  /** Character classes: `\d`, `\s`, `.`, a literal and a literal under the `i` flag. */
  datatype CharClass =
    | Digit
    | Whitespace
    | NonLineTerminator
    | Char(c: char)
    | CharIgnoringCase(c: char)
    | Union(left: CharClass, right: CharClass)

  /**
   * Under the `i` flag, non-Unicode ECMAScript compares characters after
   * Canonicalize, which upper-cases them but never maps a character outside
   * ASCII onto an ASCII one; for ASCII pattern letters this is ASCII
   * upper-casing of both sides.
   */
  predicate InClass(cc: CharClass, c: char) {
    match cc
    case Digit => IsDigit(c)
    case Whitespace => IsSpace(c)
    case NonLineTerminator => !IsLineTerminator(c)
    case Char(d) => c == d
    case CharIgnoringCase(d) => Upper(c) == Upper(d)
    case Union(l, r) => InClass(l, c) || InClass(r, c)
  }

  datatype Node =
    | Repeat(cc: CharClass, min: nat, max: Option<nat>, greedy: bool)
    | Open(group: nat)
    | Close(group: nat)

  /** An atom that must occur exactly once. */
  function Once(cc: CharClass): Node {
    Repeat(cc, 1, Some(1), true)
  }

  /** Capture group number to the (start, end) of its last capture. */
  type Captures = map<nat, (nat, nat)>

  datatype State = State(end: nat, caps: Captures)

  /** A successful `exec`: where the match starts, where it ends, its groups. */
  datatype Match = Match(start: nat, end: nat, caps: Captures)

  /** How many characters of class `cc` follow position `i` without a break. */
  function Run(cc: CharClass, s: string, i: nat): (n: nat)
    requires i <= |s|
    ensures i + n <= |s|
    ensures i + n < |s| ==> !InClass(cc, s[i + n])
    decreases |s| - i
  {
    if i < |s| && InClass(cc, s[i]) then 1 + Run(cc, s, i + 1) else 0
  }

  function Bound(n: nat, max: Option<nat>): (r: nat)
    ensures r <= n
  {
    match max
    case None => n
    case Some(m) => if m < n then m else n
  }

  /** Matches `nodes` at position `i`; the state reached, or `None` on failure. */
  function MatchAt(nodes: seq<Node>, s: string, i: nat, caps: Captures): (r: Option<State>)
    requires i <= |s|
    ensures r.Some? ==> i <= r.value.end <= |s|
    decreases |nodes|, 1, 0
  {
    if nodes == [] then Some(State(i, caps))
    else
      match nodes[0]
      case Open(g) => MatchAt(nodes[1..], s, i, caps[g := (i, i)])
      case Close(g) => MatchAt(nodes[1..], s, i, caps[g := (if g in caps then caps[g].0 else i, i)])
      case Repeat(cc, lo, mx, greedy) =>
        var hi := Bound(Run(cc, s, i), mx);
        if hi < lo then None
        else if greedy then Greedy(nodes[1..], s, i, caps, lo, hi)
        else Lazy(nodes[1..], s, i, caps, lo, hi)
  }

  /** A greedy quantifier that has taken `c` characters: try the rest, else give one back. */
  function Greedy(rest: seq<Node>, s: string, i: nat, caps: Captures, lo: nat, c: nat): (r: Option<State>)
    requires lo <= c && i + c <= |s|
    ensures r.Some? ==> i + lo <= r.value.end <= |s|
    decreases |rest| + 1, 0, c - lo
  {
    var r := MatchAt(rest, s, i + c, caps);
    if r.Some? || c == lo then r else Greedy(rest, s, i, caps, lo, c - 1)
  }

  /** A lazy quantifier that has taken `c` characters: try the rest, else take one more. */
  function Lazy(rest: seq<Node>, s: string, i: nat, caps: Captures, c: nat, hi: nat): (r: Option<State>)
    requires c <= hi && i + hi <= |s|
    ensures r.Some? ==> i + c <= r.value.end <= |s|
    decreases |rest| + 1, 0, hi - c
  {
    var r := MatchAt(rest, s, i + c, caps);
    if r.Some? || c == hi then r else Lazy(rest, s, i, caps, c + 1, hi)
  }

  /** The leftmost match starting at or after `p`. */
  function SearchFrom(nodes: seq<Node>, s: string, p: nat): (r: Option<Match>)
    requires p <= |s|
    ensures r.Some? ==> p <= r.value.start <= r.value.end <= |s|
    decreases |s| - p
  {
    match MatchAt(nodes, s, p, map[])
    case Some(st) => Some(Match(p, st.end, st.caps))
    case None => if p == |s| then None else SearchFrom(nodes, s, p + 1)
  }

  /**
   * `RegExp.prototype.exec` from `lastIndex`: a `lastIndex` past the end of
   * the string fails; otherwise the leftmost match at or after it.
   */
  function Exec(nodes: seq<Node>, s: string, lastIndex: nat): (r: Option<Match>)
    ensures r.Some? ==> lastIndex <= r.value.start <= r.value.end <= |s|
  {
    if lastIndex > |s| then None else SearchFrom(nodes, s, lastIndex)
  }

  /** The text a group captured, if the match captured that group. */
  function Group(s: string, m: Match, g: nat): (r: Option<string>)
    ensures g in m.caps && m.caps[g].0 <= m.caps[g].1 <= |s| ==> r == Some(s[m.caps[g].0..m.caps[g].1])
    ensures !(g in m.caps && m.caps[g].0 <= m.caps[g].1 <= |s|) ==> r.None?
  {
    if g in m.caps && m.caps[g].0 <= m.caps[g].1 <= |s| then Some(s[m.caps[g].0..m.caps[g].1]) else None
  }

  // ---------------------------------------------------------------------------
  // Lemmas
  // ---------------------------------------------------------------------------

  /** Every character of a run is in the class. */
  lemma {:induction false} RunChars(cc: CharClass, s: string, i: nat, k: nat)
    requires i <= |s| && i <= k < i + Run(cc, s, i)
    ensures InClass(cc, s[k])
    decreases k - i
  {
    if k > i {
      RunChars(cc, s, i + 1, k);
    }
  }

  /** After `c` characters of a run, `c` fewer remain. */
  lemma {:induction false} RunShift(cc: CharClass, s: string, i: nat, c: nat)
    requires i <= |s| && c <= Run(cc, s, i)
    ensures Run(cc, s, i + c) == Run(cc, s, i) - c
    decreases c
  {
    if c > 0 {
      RunShift(cc, s, i + 1, c - 1);
    }
  }

  /** A run is exactly as long as the stretch of class characters it starts. */
  lemma {:induction false} RunIs(cc: CharClass, s: string, i: nat, n: nat)
    requires i + n <= |s|
    requires forall k :: i <= k < i + n ==> InClass(cc, s[k])
    requires i + n == |s| || !InClass(cc, s[i + n])
    ensures Run(cc, s, i) == n
    decreases n
  {
    if n > 0 {
      RunIs(cc, s, i + 1, n - 1);
    }
  }

  /**
   * `exec` returns the leftmost match: the pattern matches where it starts
   * and at no earlier position from `p` on; when it finds nothing, the
   * pattern matches nowhere from `p` on.
   */
  lemma {:induction false} SearchIsLeftmost(nodes: seq<Node>, s: string, p: nat)
    requires p <= |s|
    ensures SearchFrom(nodes, s, p).Some? ==>
      var m := SearchFrom(nodes, s, p).value;
      MatchAt(nodes, s, m.start, map[]) == Some(State(m.end, m.caps))
      && forall q :: p <= q < m.start ==> MatchAt(nodes, s, q, map[]).None?
    ensures SearchFrom(nodes, s, p).None? ==>
      forall q :: p <= q <= |s| ==> MatchAt(nodes, s, q, map[]).None?
    decreases |s| - p
  {
    if MatchAt(nodes, s, p, map[]).None? && p < |s| {
      SearchIsLeftmost(nodes, s, p + 1);
    }
  }

  // ---------------------------------------------------------------------------
  // One node at a time: what each kind of node does in front of any rest
  // ---------------------------------------------------------------------------

  lemma OpenStep(g: nat, rest: seq<Node>, s: string, i: nat, caps: Captures)
    requires i <= |s|
    ensures MatchAt([Open(g)] + rest, s, i, caps) == MatchAt(rest, s, i, caps[g := (i, i)])
  {
    assert ([Open(g)] + rest)[1..] == rest;
  }

  lemma CloseStep(g: nat, rest: seq<Node>, s: string, i: nat, caps: Captures)
    requires i <= |s| && g in caps
    ensures MatchAt([Close(g)] + rest, s, i, caps) == MatchAt(rest, s, i, caps[g := (caps[g].0, i)])
  {
    assert ([Close(g)] + rest)[1..] == rest;
  }

  /** `x{n}`: exactly `n` characters of the class, then the rest. */
  lemma ExactStep(cc: CharClass, n: nat, rest: seq<Node>, s: string, i: nat, caps: Captures)
    requires i <= |s|
    ensures MatchAt([Repeat(cc, n, Some(n), true)] + rest, s, i, caps) ==
      if Run(cc, s, i) >= n then MatchAt(rest, s, i + n, caps) else None
  {
    assert ([Repeat(cc, n, Some(n), true)] + rest)[1..] == rest;
  }

  /** `x?`, greedy: take the character when it is there and the rest then matches. */
  lemma OptionalStep(cc: CharClass, rest: seq<Node>, s: string, i: nat, caps: Captures)
    requires i <= |s|
    ensures MatchAt([Repeat(cc, 0, Some(1), true)] + rest, s, i, caps) ==
      if i < |s| && InClass(cc, s[i]) && MatchAt(rest, s, i + 1, caps).Some?
      then MatchAt(rest, s, i + 1, caps)
      else MatchAt(rest, s, i, caps)
  {
    assert ([Repeat(cc, 0, Some(1), true)] + rest)[1..] == rest;
    assert Greedy(rest, s, i, caps, 0, 0) == MatchAt(rest, s, i, caps);
    if i < |s| && InClass(cc, s[i]) {
      assert Bound(Run(cc, s, i), Some(1)) == 1;
    } else {
      assert Bound(Run(cc, s, i), Some(1)) == 0;
    }
  }

  /** `x{lo,}`, greedy: take the whole run first, then give characters back. */
  lemma GreedyStep(cc: CharClass, lo: nat, rest: seq<Node>, s: string, i: nat, caps: Captures)
    requires i <= |s|
    ensures MatchAt([Repeat(cc, lo, None, true)] + rest, s, i, caps) ==
      if Run(cc, s, i) < lo then None else Greedy(rest, s, i, caps, lo, Run(cc, s, i))
  {
    assert ([Repeat(cc, lo, None, true)] + rest)[1..] == rest;
  }

  /** `x{lo,}?`, lazy: take `lo` characters first, then one more at a time. */
  lemma LazyStep(cc: CharClass, lo: nat, rest: seq<Node>, s: string, i: nat, caps: Captures)
    requires i <= |s|
    ensures MatchAt([Repeat(cc, lo, None, false)] + rest, s, i, caps) ==
      if Run(cc, s, i) < lo then None else Lazy(rest, s, i, caps, lo, Run(cc, s, i))
  {
    assert ([Repeat(cc, lo, None, false)] + rest)[1..] == rest;
  }

  /** A greedy quantifier stops at the first count, from the top, at which the rest matches. */
  lemma GreedyStops(rest: seq<Node>, s: string, i: nat, caps: Captures, lo: nat, c: nat)
    requires lo <= c && i + c <= |s|
    requires MatchAt(rest, s, i + c, caps).Some? || c == lo
    ensures Greedy(rest, s, i, caps, lo, c) == MatchAt(rest, s, i + c, caps)
  {
  }

  lemma GreedyBacksOff(rest: seq<Node>, s: string, i: nat, caps: Captures, lo: nat, c: nat)
    requires lo < c && i + c <= |s|
    requires MatchAt(rest, s, i + c, caps).None?
    ensures Greedy(rest, s, i, caps, lo, c) == Greedy(rest, s, i, caps, lo, c - 1)
  {
  }

  /** When backing off from `c` cannot match, the greedy result is the match after all `c` characters. */
  lemma GreedyTopOrNone(rest: seq<Node>, s: string, i: nat, caps: Captures, lo: nat, c: nat)
    requires lo <= c && i + c <= |s|
    requires c > lo ==> Greedy(rest, s, i, caps, lo, c - 1).None?
    ensures Greedy(rest, s, i, caps, lo, c) == MatchAt(rest, s, i + c, caps)
  {
  }

  /** A lazy quantifier stops at the first count, from the bottom, at which the rest matches. */
  lemma LazyStops(rest: seq<Node>, s: string, i: nat, caps: Captures, c: nat, hi: nat)
    requires c <= hi && i + hi <= |s|
    requires MatchAt(rest, s, i + c, caps).Some? || c == hi
    ensures Lazy(rest, s, i, caps, c, hi) == MatchAt(rest, s, i + c, caps)
  {
  }

  lemma LazyAdvances(rest: seq<Node>, s: string, i: nat, caps: Captures, c: nat, hi: nat)
    requires c < hi && i + hi <= |s|
    requires MatchAt(rest, s, i + c, caps).None?
    ensures Lazy(rest, s, i, caps, c, hi) == Lazy(rest, s, i, caps, c + 1, hi)
  {
  }
}
