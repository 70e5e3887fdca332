/**
 * The pieces of JavaScript's string and number built-ins that the app relies on:
 * white space as ECMAScript defines it (the set shared by `trim` and `\s`),
 * ASCII case mapping, `trim`, `split` with a one-character separator, `join`,
 * `includes`, `parseFloat`, `Number` on digit strings and decimal printing of
 * naturals.  A `string` is a sequence of characters; JavaScript's `||` on an
 * optional string is `OrElse`.
 */
module JsText {
  import opened Wrappers

  // ---------------------------------------------------------------------------
  // Character classes
  // ---------------------------------------------------------------------------

  /** ECMAScript LineTerminator: the characters `.` in a regular expression refuses. */
  predicate IsLineTerminator(c: char) {
    c == '\n' || c == '\r' || c == '\U{2028}' || c == '\U{2029}'
  }

  /** ECMAScript WhiteSpace and LineTerminator: what `trim` removes and `\s` matches. */
  predicate IsSpace(c: char) {
    c == '\t' || c == '\U{000B}' || c == '\U{000C}' || c == ' ' || c == '\U{00A0}'
    || c == '\U{FEFF}' || c == '\U{1680}' || ('\U{2000}' <= c <= '\U{200A}')
    || c == '\U{202F}' || c == '\U{205F}' || c == '\U{3000}'
    || IsLineTerminator(c)
  }

  predicate IsDigit(c: char) {
    '0' <= c <= '9'
  }

  predicate IsUpper(c: char) {
    'A' <= c <= 'Z'
  }

  predicate IsLower(c: char) {
    'a' <= c <= 'z'
  }

  predicate AllDigits(s: string) {
    forall i :: 0 <= i < |s| ==> IsDigit(s[i])
  }

  // ---------------------------------------------------------------------------
  // Case mapping (ASCII letters)
  // ---------------------------------------------------------------------------

  function Lower(c: char): (r: char)
    ensures !IsUpper(r)
  {
    if IsUpper(c) then (c as int + 32) as char else c
  }

  function Upper(c: char): (r: char)
    ensures !IsLower(r)
  {
    if IsLower(c) then (c as int - 32) as char else c
  }

  function LowerStr(s: string): (r: string)
    ensures |r| == |s|
    ensures forall i :: 0 <= i < |s| ==> r[i] == Lower(s[i])
  {
    seq(|s|, i requires 0 <= i < |s| => Lower(s[i]))
  }

  function UpperStr(s: string): (r: string)
    ensures |r| == |s|
    ensures forall i :: 0 <= i < |s| ==> r[i] == Upper(s[i])
  {
    seq(|s|, i requires 0 <= i < |s| => Upper(s[i]))
  }

  // ---------------------------------------------------------------------------
  // trim, white-space collapsing, split, join, includes
  // ---------------------------------------------------------------------------

  /** The string without its leading white space; it is a suffix of `s`. */
  function TrimStart(s: string): (r: string)
    ensures |r| <= |s| && r == s[|s| - |r|..]
    ensures r == [] || !IsSpace(r[0])
  {
    if |s| > 0 && IsSpace(s[0]) then TrimStart(s[1..]) else s
  }

  /** What `trimStart` drops is white space. */
  lemma {:induction false} TrimStartDropsSpaces(s: string, i: nat)
    requires i < |s| - |TrimStart(s)|
    ensures IsSpace(s[i])
  {
    if i > 0 {
      TrimStartDropsSpaces(s[1..], i - 1);
    }
  }

  /** The string without its trailing white space; it is a prefix of `s`. */
  function TrimEnd(s: string): (r: string)
    ensures |r| <= |s| && r == s[..|r|]
    ensures r == [] || !IsSpace(r[|r| - 1])
  {
    if |s| > 0 && IsSpace(s[|s| - 1]) then TrimEnd(s[..|s| - 1]) else s
  }

  /** `String.prototype.trim`. */
  function Trim(s: string): string {
    TrimEnd(TrimStart(s))
  }

  /** `s.replace(/\s+/g, ' ')`: every maximal run of white space becomes one space. */
  function CollapseSpaces(s: string): string
    decreases |s|
  {
    if s == [] then []
    else if IsSpace(s[0]) then [' '] + CollapseSpaces(TrimStart(s))
    else [s[0]] + CollapseSpaces(s[1..])
  }

  /** `s.split(sep)` for a one-character separator: never an empty list. */
  function SplitOn(s: string, sep: char): (parts: seq<string>)
    ensures |parts| >= 1
  {
    if s == [] then [[]]
    else
      var rest := SplitOn(s[1..], sep);
      if s[0] == sep then [[]] + rest else [[s[0]] + rest[0]] + rest[1..]
  }

  /** `parts.join(sep)`. */
  function JoinWith(parts: seq<string>, sep: string): string {
    if parts == [] then []
    else if |parts| == 1 then parts[0]
    else parts[0] + sep + JoinWith(parts[1..], sep)
  }

  /** Joining four parts puts the separator between each neighbouring pair. */
  lemma JoinFour(a: string, b: string, c: string, d: string, sep: string)
    ensures JoinWith([a, b, c, d], sep) == a + sep + (b + sep + (c + sep + d))
  {
    assert [a, b, c, d][1..] == [b, c, d];
    assert [b, c, d][1..] == [c, d];
    assert [c, d][1..] == [d];
    assert JoinWith([c, d], sep) == c + sep + d;
    assert JoinWith([b, c, d], sep) == b + sep + JoinWith([c, d], sep);
  }

  /** `s.split(/\s+/)`: splitting at maximal white-space runs is splitting the
      collapsed string at single spaces. */
  function SplitOnWhiteSpace(s: string): (parts: seq<string>)
    ensures |parts| >= 1
  {
    SplitOn(CollapseSpaces(s), ' ')
  }

  /** `sub` occurs in `s` starting at index `i`. */
  predicate OccursAt(s: string, sub: string, i: int) {
    0 <= i && i + |sub| <= |s| && s[i..i + |sub|] == sub
  }

  /** `s.includes(sub)`. */
  predicate Contains(s: string, sub: string) {
    exists i | 0 <= i <= |s| :: OccursAt(s, sub, i)
  }

  /** `a || b` where `a` is an optional string: the empty string is falsy too. */
  function OrElse(a: Option<string>, b: string): (r: string)
    ensures a.Some? && a.value != [] ==> r == a.value
    ensures a.None? || a.value == [] ==> r == b
  {
    if a.Some? && a.value != [] then a.value else b
  }

  // ---------------------------------------------------------------------------
  // Decimal digits
  // ---------------------------------------------------------------------------

  function DigitChar(d: nat): (c: char)
    requires d < 10
    ensures IsDigit(c)
  {
    ('0' as int + d) as char
  }

  function DigitValue(c: char): (d: nat)
    requires IsDigit(c)
    ensures d < 10
  {
    c as int - '0' as int
  }

  function Pow10(n: nat): (r: nat)
    ensures r >= 1
  {
    if n == 0 then 1 else 10 * Pow10(n - 1)
  }

  /** The natural number a string of decimal digits denotes. */
  function DigitsValue(s: string): nat
    requires AllDigits(s)
  {
    if s == [] then 0 else 10 * DigitsValue(s[..|s| - 1]) + DigitValue(s[|s| - 1])
  }

  /** Decimal notation of a natural number, without leading zeros. */
  function NatToString(n: nat): (s: string)
    ensures |s| >= 1 && AllDigits(s)
  {
    if n < 10 then [DigitChar(n)] else NatToString(n / 10) + [DigitChar(n % 10)]
  }

  /** Number of decimal digits at the front of `s`. */
  function LeadingDigits(s: string): (k: nat)
    ensures k <= |s| && AllDigits(s[..k])
    ensures k < |s| ==> !IsDigit(s[k])
  {
    if |s| > 0 && IsDigit(s[0]) then
      var k := 1 + LeadingDigits(s[1..]);
      assert s[..k] == [s[0]] + s[1..][..k - 1];
      k
    else 0
  }

  /** The value of the digits after a decimal point. */
  function FractionValue(f: string): real
    requires AllDigits(f)
  {
    DigitsValue(f) as real / Pow10(|f|) as real
  }

  /** The digits after a leading `.` of `a`, or none when `a` does not start with a point. */
  function FractionDigits(a: string): (f: string)
    ensures AllDigits(f)
  {
    if |a| > 0 && a[0] == '.' then a[1..][..LeadingDigits(a[1..])] else []
  }

  /** An unsigned decimal at the front of `u`: digits* ('.' digits*)? with at least one digit. */
  function ParseUnsigned(u: string): Option<real> {
    var k := LeadingDigits(u);
    var f := FractionDigits(u[k..]);
    if k == 0 && f == [] then None
    else Some(DigitsValue(u[..k]) as real + FractionValue(f))
  }

  /**
   * `parseFloat(s)`: leading white space is skipped, then an optional sign
   * and the longest unsigned decimal prefix are read; `None` is NaN.
   */
  function ParseFloat(s: string): Option<real> {
    var t := TrimStart(s);
    if |t| > 0 && t[0] == '-' then
      match ParseUnsigned(t[1..])
      case None => None
      case Some(v) => Some(-v)
    else if |t| > 0 && t[0] == '+' then ParseUnsigned(t[1..])
    else ParseUnsigned(t)
  }

  /** A string of digits reads as its value. */
  lemma ParseUnsignedDigits(t: string)
    requires |t| >= 1 && AllDigits(t)
    ensures ParseUnsigned(t) == Some(DigitsValue(t) as real)
  {
    LeadingDigitsIs(t, |t|);
    assert t[..|t|] == t;
    assert FractionDigits(t[|t|..]) == [];
  }

  /** Digits, a point and digits read as the whole part plus the fraction. */
  lemma ParseUnsignedPoint(t: string, k: nat)
    requires 1 <= k < |t| && AllDigits(t[..k]) && t[k] == '.' && AllDigits(t[k + 1..])
    ensures ParseUnsigned(t) == Some(DigitsValue(t[..k]) as real + FractionValue(t[k + 1..]))
  {
    LeadingDigitsIs(t, k);
    var f := t[k + 1..];
    assert t[k..][1..] == f;
    LeadingDigitsIs(f, |f|);
    assert f[..|f|] == f;
    assert FractionDigits(t[k..]) == f;
  }

  /** A string that starts with a digit is read without sign or white space. */
  lemma ParseFloatOfDigitStart(s: string)
    requires |s| > 0 && IsDigit(s[0])
    ensures ParseFloat(s) == ParseUnsigned(s)
  {
    assert TrimStart(s) == s;
  }

  /** `parseFloat(text) || 0`: NaN and zero both give 0. */
  function ParseFloatOrZero(text: string): real {
    match ParseFloat(text)
    case Some(v) => v
    case None => 0.0
  }

  /** A value under a leading sign character: negated after '-'. */
  function SignedValue(sign: char, v: nat): int {
    if sign == '-' then -(v as int) else v
  }

  /**
   * `Number(s)` on an optionally signed whole number: white space around it
   * is ignored, the empty string is 0, and a leading '+' or '-' applies to
   * the digits after it.  Decimal points, exponents, hexadecimal, octal and
   * binary literals and `Infinity` are not read here; they and every other
   * text give `None`, which stands for NaN.
   */
  function NumberOfInteger(s: string): Option<int> {
    IntegerText(Trim(s))
  }

  /** An optionally signed digit string's value; the empty string is 0. */
  function IntegerText(t: string): Option<int> {
    if AllDigits(t) then Some(DigitsValue(t))
    else if |t| >= 2 && (t[0] == '+' || t[0] == '-') && AllDigits(t[1..]) then
      Some(SignedValue(t[0], DigitsValue(t[1..])))
    else None
  }

  // ---------------------------------------------------------------------------
  // Lemmas
  // ---------------------------------------------------------------------------

  /** Joining the pieces of a split with the separator gives back the string. */
  lemma {:induction false} JoinSplit(s: string, sep: char)
    ensures JoinWith(SplitOn(s, sep), [sep]) == s
  {
    if s != [] {
      var rest := SplitOn(s[1..], sep);
      JoinSplit(s[1..], sep);
      if s[0] == sep {
        JoinEmptyFirst(rest, [sep]);
      } else {
        JoinExtendFirst(s[0], rest, [sep]);
      }
    }
  }

  /** Joining after an empty first part puts the separator in front. */
  lemma JoinEmptyFirst(parts: seq<string>, sep: string)
    requires |parts| >= 1
    ensures JoinWith([[]] + parts, sep) == sep + JoinWith(parts, sep)
  {
    assert ([[]] + parts)[1..] == parts;
  }

  /** Joining with a character in front of the first part puts it in front of the whole. */
  lemma JoinExtendFirst(c: char, parts: seq<string>, sep: string)
    requires |parts| >= 1
    ensures JoinWith([[c] + parts[0]] + parts[1..], sep) == [c] + JoinWith(parts, sep)
  {
    var ps := [[c] + parts[0]] + parts[1..];
    if |parts| == 1 {
      assert ps == [[c] + parts[0]];
    } else {
      assert ps[1..] == parts[1..];
    }
  }

  /** No piece of a split contains the separator. */
  lemma {:induction false} SplitPiecesAvoidSeparator(s: string, sep: char)
    ensures forall k :: 0 <= k < |SplitOn(s, sep)| ==> sep !in SplitOn(s, sep)[k]
  {
    if s != [] {
      SplitPiecesAvoidSeparator(s[1..], sep);
    }
  }

  /** Reading back the decimal notation of `n` gives `n`. */
  lemma {:induction false} NatToStringValue(n: nat)
    ensures DigitsValue(NatToString(n)) == n
  {
    if n >= 10 {
      NatToStringValue(n / 10);
      var s := NatToString(n / 10) + [DigitChar(n % 10)];
      assert s[..|s| - 1] == NatToString(n / 10);
    }
  }

  /** Distinct naturals are printed differently. */
  lemma NatToStringInjective(m: nat, n: nat)
    requires NatToString(m) == NatToString(n)
    ensures m == n
  {
    NatToStringValue(m);
    NatToStringValue(n);
  }

  /** ASCII lower-casing leaves no upper-case letter and is idempotent. */
  lemma LowerStrIdempotent(s: string)
    ensures LowerStr(LowerStr(s)) == LowerStr(s)
  {
  }

  /** `LeadingDigits` counts exactly the digits before the first non-digit. */
  lemma {:induction false} LeadingDigitsIs(s: string, k: nat)
    requires k <= |s| && AllDigits(s[..k]) && (k == |s| || !IsDigit(s[k]))
    ensures LeadingDigits(s) == k
  {
    if k > 0 {
      assert s[..k][0] == s[0];
      assert s[1..][..k - 1] == s[1..k];
      assert forall j :: 0 <= j < k - 1 ==> s[1..k][j] == s[..k][j + 1];
      LeadingDigitsIs(s[1..], k - 1);
    }
  }

  /** Lower-casing commutes with taking a slice. */
  lemma LowerStrSlice(s: string, a: nat, b: nat)
    requires a <= b <= |s|
    ensures LowerStr(s[a..b]) == LowerStr(s)[a..b]
  {
  }

  /** What occurs in a slice occurs in the whole string. */
  lemma {:induction false} ContainsInSlice(s: string, a: nat, b: nat, sub: string)
    requires a <= b <= |s| && Contains(s[a..b], sub)
    ensures Contains(s, sub)
  {
    var i :| 0 <= i <= b - a && OccursAt(s[a..b], sub, i);
    forall k | 0 <= k < |sub|
      ensures s[a + i..a + i + |sub|][k] == sub[k]
    {
      assert s[a..b][i..i + |sub|][k] == sub[k];
    }
    assert OccursAt(s, sub, a + i);
  }

  /** What occurs in a lower-cased slice occurs in the lower-cased whole. */
  lemma {:induction false} ContainsLowerSlice(s: string, a: nat, b: nat, sub: string)
    requires a <= b <= |s| && Contains(LowerStr(s[a..b]), sub)
    ensures Contains(LowerStr(s), sub)
  {
    LowerStrSlice(s, a, b);
    ContainsInSlice(LowerStr(s), a, b, sub);
  }

  /** Trimming cannot make a lower-cased string contain what it did not. */
  lemma {:induction false} TrimKeepsOut(s: string, sub: string)
    requires !Contains(LowerStr(s), sub)
    ensures !Contains(LowerStr(Trim(s)), sub)
  {
    TrimStartKeepsOut(s, sub);
    TrimEndKeepsOut(TrimStart(s), sub);
  }

  lemma {:induction false} TrimStartKeepsOut(s: string, sub: string)
    requires !Contains(LowerStr(s), sub)
    ensures !Contains(LowerStr(TrimStart(s)), sub)
  {
    KeepsOutOfSlice(s, TrimStart(s), |s| - |TrimStart(s)|, sub);
  }

  lemma {:induction false} TrimEndKeepsOut(s: string, sub: string)
    requires !Contains(LowerStr(s), sub)
    ensures !Contains(LowerStr(TrimEnd(s)), sub)
  {
    KeepsOutOfSlice(s, TrimEnd(s), 0, sub);
  }

  lemma {:induction false} KeepsOutOfSlice(s: string, t: string, a: nat, sub: string)
    requires a + |t| <= |s| && t == s[a..a + |t|] && !Contains(LowerStr(s), sub)
    ensures !Contains(LowerStr(t), sub)
  {
    if Contains(LowerStr(t), sub) {
      ContainsLowerSlice(s, a, a + |t|, sub);
    }
  }

  /** A name without the letter t in either case does not mention "total". */
  lemma NoLetterT(s: string)
    requires forall k :: 0 <= k < |s| ==> s[k] != 't' && s[k] != 'T'
    ensures !Contains(LowerStr(s), "total")
  {
    MissingFirstChar(LowerStr(s), "total");
  }

  /** A string that starts and ends with non-space characters is its own trim. */
  lemma TrimUntouched(s: string)
    requires |s| > 0 && !IsSpace(s[0]) && !IsSpace(s[|s| - 1])
    ensures Trim(s) == s
  {
  }

  /** A string without the first character of `sub` does not contain `sub`. */
  lemma MissingFirstChar(s: string, sub: string)
    requires |sub| > 0 && sub[0] !in s
    ensures !Contains(s, sub)
  {
  }

  // ---------------------------------------------------------------------------
  // Words separated by single spaces
  // ---------------------------------------------------------------------------

  /** White space in `s` is only single spaces, each followed by a non-space. */
  predicate SingleSpaced(s: string) {
    forall i :: 0 <= i < |s| && IsSpace(s[i]) ==> s[i] == ' ' && i + 1 < |s| && !IsSpace(s[i + 1])
  }

  /** A non-empty list of non-empty words without white space. */
  predicate SpacedWords(words: seq<string>) {
    |words| >= 1
    && forall k :: 0 <= k < |words| ==> words[k] != [] && forall i :: 0 <= i < |words[k]| ==> !IsSpace(words[k][i])
  }

  /** The only white space collapsing leaves is the plain space. */
  lemma {:induction false} CollapseOnlySpace(s: string)
    ensures forall i :: 0 <= i < |CollapseSpaces(s)| && IsSpace(CollapseSpaces(s)[i]) ==> CollapseSpaces(s)[i] == ' '
    decreases |s|
  {
    if s != [] {
      if IsSpace(s[0]) {
        CollapseOnlySpace(TrimStart(s));
      } else {
        CollapseOnlySpace(s[1..]);
      }
    }
  }

  /** Collapsing white space twice is collapsing it once. */
  lemma {:induction false} CollapseIdempotent(s: string)
    ensures CollapseSpaces(CollapseSpaces(s)) == CollapseSpaces(s)
    decreases |s|
  {
    if s != [] {
      if IsSpace(s[0]) {
        var t := TrimStart(s);
        var c := CollapseSpaces(t);
        CollapseIdempotent(t);
        assert c == [] || !IsSpace(c[0]);
        var d := [' '] + c;
        assert d[1..] == c;
        assert TrimStart(d) == c;
      } else {
        CollapseIdempotent(s[1..]);
        var d := [s[0]] + CollapseSpaces(s[1..]);
        assert d[1..] == CollapseSpaces(s[1..]);
      }
    }
  }

  /** A string already single-spaced is left alone by collapsing. */
  lemma {:induction false} CollapseUntouched(s: string)
    requires SingleSpaced(s)
    ensures CollapseSpaces(s) == s
    decreases |s|
  {
    if s != [] {
      assert forall i :: 0 <= i < |s[1..]| ==> s[1..][i] == s[i + 1];
      assert SingleSpaced(s[1..]);
      if IsSpace(s[0]) {
        assert TrimStart(s[1..]) == s[1..];
      }
      CollapseUntouched(s[1..]);
    }
  }

  /** Splitting after a separator-free prefix extends the first piece by it. */
  lemma {:induction false} SplitOnPrefix(w: string, tail: string, sep: char)
    requires sep !in w
    ensures SplitOn(w + tail, sep) == [w + SplitOn(tail, sep)[0]] + SplitOn(tail, sep)[1..]
    decreases |w|
  {
    var t := SplitOn(tail, sep);
    if w == [] {
      assert w + tail == tail;
      assert w + t[0] == t[0];
      assert t == [t[0]] + t[1..];
    } else {
      var v := w[1..];
      SplitOnPrefix(v, tail, sep);
      SplitOnCons(w[0], v + tail, sep);
      assert w + tail == [w[0]] + (v + tail);
      assert [w[0]] + (v + t[0]) == w + t[0];
    }
  }

  /** A leading non-separator joins the first piece. */
  lemma SplitOnCons(c: char, s: string, sep: char)
    requires c != sep
    ensures SplitOn([c] + s, sep) == [[c] + SplitOn(s, sep)[0]] + SplitOn(s, sep)[1..]
  {
    assert ([c] + s)[1..] == s;
  }

  /** Splitting words joined by a separator they avoid gives the words back. */
  lemma {:induction false} SplitJoin(words: seq<string>, sep: char)
    requires |words| >= 1 && forall k :: 0 <= k < |words| ==> sep !in words[k]
    ensures SplitOn(JoinWith(words, [sep]), sep) == words
  {
    var w := words[0];
    if |words| == 1 {
      SplitOnPrefix(w, [], sep);
      assert w + [] == w;
    } else {
      var rest := JoinWith(words[1..], [sep]);
      SplitJoin(words[1..], sep);
      SplitOnPrefix(w, [sep] + rest, sep);
      assert w + [sep] + rest == w + ([sep] + rest);
      assert ([sep] + rest)[1..] == rest;
      assert w + [] == w;
      assert [w] + words[1..] == words;
    }
  }

  /** Words joined by single spaces start and end with a non-space and are single-spaced. */
  lemma {:induction false} JoinedWordsLayout(words: seq<string>)
    requires SpacedWords(words)
    ensures var j := JoinWith(words, " ");
      |j| >= 1 && !IsSpace(j[0]) && !IsSpace(j[|j| - 1]) && SingleSpaced(j)
  {
    var w := words[0];
    assert !IsSpace(w[0]) && !IsSpace(w[|w| - 1]);
    if |words| > 1 {
      var tail := words[1..];
      assert forall k :: 0 <= k < |tail| ==> tail[k] == words[k + 1];
      JoinedWordsLayout(tail);
      var r := JoinWith(tail, " ");
      var j := w + " " + r;
      assert JoinWith(words, " ") == j;
      forall i | 0 <= i < |j| && IsSpace(j[i])
        ensures j[i] == ' ' && i + 1 < |j| && !IsSpace(j[i + 1])
      {
        if i < |w| {
          assert false;
        } else if i > |w| {
          assert j[i] == r[i - |w| - 1];
          assert i + 1 < |j| ==> j[i + 1] == r[i - |w|];
        } else {
          assert j[i + 1] == r[0];
        }
      }
      assert j[|j| - 1] == r[|r| - 1];
    } else {
      assert JoinWith(words, " ") == w;
    }
  }

  /** Splitting single-spaced text keeps every piece free of white space. */
  lemma {:induction false} SplitPiecesNoSpace(s: string)
    requires forall i :: 0 <= i < |s| && IsSpace(s[i]) ==> s[i] == ' '
    ensures forall k, i :: 0 <= k < |SplitOn(s, ' ')| && 0 <= i < |SplitOn(s, ' ')[k]| ==> !IsSpace(SplitOn(s, ' ')[k][i])
  {
    if s != [] {
      assert forall i :: 0 <= i < |s[1..]| ==> s[1..][i] == s[i + 1];
      SplitPiecesNoSpace(s[1..]);
      var rest := SplitOn(s[1..], ' ');
      if s[0] != ' ' {
        var first := [s[0]] + rest[0];
        assert forall i :: 1 <= i < |first| ==> first[i] == rest[0][i - 1];
        assert SplitOn(s, ' ') == [first] + rest[1..];
      }
    }
  }

  /** Collapsing never leaves two white-space characters side by side. */
  lemma {:induction false} CollapseNoDoubleSpace(s: string)
    ensures forall i :: 0 <= i < |CollapseSpaces(s)| - 1 && IsSpace(CollapseSpaces(s)[i]) ==> !IsSpace(CollapseSpaces(s)[i + 1])
    decreases |s|
  {
    if s != [] {
      var c := CollapseSpaces(s);
      if IsSpace(s[0]) {
        var t := TrimStart(s);
        CollapseNoDoubleSpace(t);
        var d := CollapseSpaces(t);
        assert c == [' '] + d;
        assert d == [] || !IsSpace(d[0]) by {
          if t != [] {
            assert d[0] == t[0];
          }
        }
        forall i | 0 <= i < |c| - 1 && IsSpace(c[i])
          ensures !IsSpace(c[i + 1])
        {
          if i > 0 {
            assert c[i] == d[i - 1] && c[i + 1] == d[i];
          }
        }
      } else {
        CollapseNoDoubleSpace(s[1..]);
        var d := CollapseSpaces(s[1..]);
        assert c == [s[0]] + d;
        forall i | 0 <= i < |c| - 1 && IsSpace(c[i])
          ensures !IsSpace(c[i + 1])
        {
          assert c[i] == d[i - 1] && c[i + 1] == d[i];
        }
      }
    }
  }

  /** Collapsing keeps the characters of `s` and adds only plain spaces. */
  lemma {:induction false} CollapseChars(s: string)
    ensures forall i :: 0 <= i < |CollapseSpaces(s)| ==> CollapseSpaces(s)[i] == ' ' || CollapseSpaces(s)[i] in s
    decreases |s|
  {
    if s != [] {
      var c := CollapseSpaces(s);
      if IsSpace(s[0]) {
        var t := TrimStart(s);
        CollapseChars(t);
        assert forall x :: x in t ==> x in s;
        assert c == [' '] + CollapseSpaces(t);
      } else {
        CollapseChars(s[1..]);
        assert forall x :: x in s[1..] ==> x in s;
        assert c == [s[0]] + CollapseSpaces(s[1..]);
      }
    }
  }

  /** The trimmed string is a slice of `s` that starts and ends with a non-space. */
  lemma TrimSlice(s: string) returns (a: nat)
    ensures a + |Trim(s)| <= |s| && Trim(s) == s[a..a + |Trim(s)|]
    ensures Trim(s) == [] || (!IsSpace(Trim(s)[0]) && !IsSpace(Trim(s)[|Trim(s)| - 1]))
  {
    var u := TrimStart(s);
    a := TrimParts(s, u, TrimEnd(u));
  }

  /** A non-space-ended prefix of a non-space-started suffix of `s`. */
  lemma TrimParts(s: string, u: string, t: string) returns (a: nat)
    requires |u| <= |s| && u == s[|s| - |u|..] && (u == [] || !IsSpace(u[0]))
    requires |t| <= |u| && t == u[..|t|] && (t == [] || !IsSpace(t[|t| - 1]))
    ensures a == |s| - |u| && a + |t| <= |s| && t == s[a..a + |t|]
    ensures t == [] || (!IsSpace(t[0]) && !IsSpace(t[|t| - 1]))
  {
    a := |s| - |u|;
    if t != [] {
      assert t[0] == u[0];
    }
  }

  /** Collapsing and then trimming gives single-spaced text. */
  lemma TrimCollapsedSingleSpaced(s: string)
    ensures SingleSpaced(Trim(CollapseSpaces(s)))
  {
    CollapseOnlySpace(s);
    CollapseNoDoubleSpace(s);
    TrimSingleSpaced(CollapseSpaces(s));
  }

  /** Trimming text whose white space is lone plain spaces makes it single-spaced. */
  lemma TrimSingleSpaced(c: string)
    requires forall i :: 0 <= i < |c| && IsSpace(c[i]) ==> c[i] == ' '
    requires forall i :: 0 <= i < |c| - 1 && IsSpace(c[i]) ==> !IsSpace(c[i + 1])
    ensures SingleSpaced(Trim(c))
  {
    var a := TrimSlice(c);
    SliceSingleSpaced(c, a, Trim(c));
  }

  /** A slice of such text that does not end in white space is single-spaced. */
  lemma SliceSingleSpaced(c: string, a: nat, t: string)
    requires forall i :: 0 <= i < |c| && IsSpace(c[i]) ==> c[i] == ' '
    requires forall i :: 0 <= i < |c| - 1 && IsSpace(c[i]) ==> !IsSpace(c[i + 1])
    requires a + |t| <= |c| && t == c[a..a + |t|] && (t == [] || !IsSpace(t[|t| - 1]))
    ensures SingleSpaced(t)
  {
    forall i | 0 <= i < |t| && IsSpace(t[i])
      ensures t[i] == ' ' && i + 1 < |t| && !IsSpace(t[i + 1])
    {
      assert t[i] == c[a + i];
      if i + 1 < |t| {
        assert t[i + 1] == c[a + i + 1];
      }
    }
  }
}
