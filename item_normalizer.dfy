/**
 * The server's item-name normaliser.  A raw OCR item name is trimmed, its
 * white-space runs collapsed to single spaces, and each token rewritten on
 * its own: through the brand table, then the product table, then the
 * number-and-unit pattern `/^(\d+\.?\d*)?([A-Z]+)$/` with the unit table,
 * and otherwise by a capitalisation rule.  The rewritten tokens are joined by
 * single spaces.  All table keys are upper case and every token is
 * upper-cased before a lookup.
 */
module ItemNormalizer {
  import opened Wrappers
  import opened JsText
  import ScanPatternFacts

  /** The brand, product and unit tables, each keyed by an upper-case abbreviation. */
  datatype AbbreviationTables = AbbreviationTables(
    brands: map<string, string>,
    products: map<string, string>,
    units: map<string, string>)

  const DefaultBrands: map<string, string> := map[
    "GV" := "Great Value",
    "MM" := "Member's Mark",
    "KS" := "Kirkland Signature",
    "SM" := "Sam's Member",
    "365" := "365 Everyday Value",
    "TJ" := "Trader Joe's",
    "KC" := "King's Choice",
    "FM" := "Food Maxx",
    "SB" := "Safeway Brand",
    "WM" := "Walmart",
    "TGT" := "Target"]

  const DefaultProducts: map<string, string> := map[
    "ORG" := "Organic",
    "MLK" := "Milk",
    "CHZ" := "Cheese",
    "BTR" := "Butter",
    "BRD" := "Bread",
    "YGT" := "Yogurt",
    "CKN" := "Chicken",
    "BF" := "Beef",
    "PK" := "Pork",
    "FRZ" := "Frozen",
    "FRS" := "Fresh",
    "WHT" := "White",
    "WHL" := "Whole",
    "SKM" := "Skim",
    "2%" := "2% Reduced Fat",
    "FF" := "Fat Free",
    "LF" := "Low Fat",
    "RF" := "Reduced Fat",
    "NS" := "No Salt",
    "LS" := "Low Sodium",
    "SF" := "Sugar Free",
    "GF" := "Gluten Free",
    "VEG" := "Vegetable",
    "FRT" := "Fruit",
    "JCE" := "Juice",
    "WTR" := "Water",
    "SDW" := "Sandwich"]

  const DefaultUnits: map<string, string> := map[
    "GAL" := "Gallon",
    "QT" := "Quart",
    "PT" := "Pint",
    "OZ" := "Ounce",
    "LB" := "Pound",
    "CT" := "Count",
    "PK" := "Pack",
    "BX" := "Box",
    "BG" := "Bag",
    "BTL" := "Bottle",
    "CN" := "Can",
    "JAR" := "Jar"]

  const DefaultTables: AbbreviationTables := AbbreviationTables(DefaultBrands, DefaultProducts, DefaultUnits)

  // ---------------------------------------------------------------------------
  // The number-and-unit pattern
  // ---------------------------------------------------------------------------

  /** Length of the run of letters A-Z that ends `s`. */
  function TrailingLetters(s: string): (k: nat)
    ensures k <= |s|
    ensures forall i :: |s| - k <= i < |s| ==> IsUpper(s[i])
    ensures k < |s| ==> !IsUpper(s[|s| - k - 1])
  {
    if |s| > 0 && IsUpper(s[|s| - 1]) then 1 + TrailingLetters(s[..|s| - 1]) else 0
  }

  /** What `/^(\d+\.?\d*)?([A-Z]+)$/` accepts: an optional number, then a non-empty run of A-Z. */
  predicate UnitShape(number: string, unit: string) {
    unit != []
    && (forall i :: 0 <= i < |unit| ==> IsUpper(unit[i]))
    && (number == [] || ScanPatternFacts.NumberText(number))
  }

  /**
   * The match of `/^(\d+\.?\d*)?([A-Z]+)$/` on `up`: the number group (empty
   * when it took no part) and the unit group, or `None` when there is no match.
   */
  function UnitSplit(up: string): (r: Option<(string, string)>)
    ensures r.Some? ==> up == r.value.0 + r.value.1 && UnitShape(r.value.0, r.value.1)
  {
    var k := TrailingLetters(up);
    var number := up[..|up| - k];
    if k >= 1 && (number == [] || ScanPatternFacts.NumberText(number)) then
      assert up == number + up[|up| - k..];
      Some((number, up[|up| - k..]))
    else None
  }

  // ---------------------------------------------------------------------------
  // Rewriting one token
  // ---------------------------------------------------------------------------

  /**
   * `capitalizeWord`: a word with both an upper- and a lower-case form of its
   * own (mixed case) is kept; any other word gets its first character
   * upper-cased and the rest lower-cased.
   */
  function Capitalize(word: string): (r: string)
    ensures |r| == |word|
  {
    if word != UpperStr(word) && word != LowerStr(word) then word
    else if word == [] then []
    else [Upper(word[0])] + LowerStr(word[1..])
  }

  /** The segment one token becomes: brand, then product, then unit, then capitalisation. */
  function RewriteToken(t: AbbreviationTables, part: string): string {
    var up := UpperStr(part);
    if up in t.brands then t.brands[up]
    else if up in t.products then t.products[up]
    else
      match UnitSplit(up)
      case Some((number, unit)) =>
        if unit in t.units then
          (if number != [] then number + " " + t.units[unit] else t.units[unit])
        else Capitalize(part)
      case None => Capitalize(part)
  }

  // ---------------------------------------------------------------------------
  // Rewriting a name
  // ---------------------------------------------------------------------------

  /** `rawName.trim().replace(/\s+/g, ' ').split(/\s+/)`. */
  function Tokens(rawName: string): (parts: seq<string>)
    ensures |parts| >= 1
  {
    SplitOnWhiteSpace(CollapseSpaces(Trim(rawName)))
  }

  /** One segment per token, in the same order. */
  function Segments(t: AbbreviationTables, parts: seq<string>): (r: seq<string>)
    ensures |r| == |parts|
  {
    seq(|parts|, k requires 0 <= k < |parts| => RewriteToken(t, parts[k]))
  }

  /** The normalised name under tables `t`. */
  function NormalizeWith(t: AbbreviationTables, rawName: string): string {
    JoinWith(Segments(t, Tokens(rawName)), " ")
  }

  /** Rewriting one more token appends one segment. */
  lemma SegmentsSnoc(t: AbbreviationTables, parts: seq<string>, i: nat)
    requires i < |parts|
    ensures Segments(t, parts[..i + 1]) == Segments(t, parts[..i]) + [RewriteToken(t, parts[i])]
  {
    assert parts[..i + 1] == parts[..i] + [parts[i]];
  }

  /** The normaliser object: three tables that the `Add` methods extend in place. */
  class Normalizer {
    var brandAbbreviations: map<string, string>
    var commonAbbreviations: map<string, string>
    var unitAbbreviations: map<string, string>

    /** A normaliser starts with the built-in tables. */
    constructor ()
      ensures Tables() == DefaultTables
    {
      brandAbbreviations := DefaultBrands;
      commonAbbreviations := DefaultProducts;
      unitAbbreviations := DefaultUnits;
    }

    function Tables(): AbbreviationTables
      reads this
    {
      AbbreviationTables(brandAbbreviations, commonAbbreviations, unitAbbreviations)
    }

    /** `normalize`: rewrites the tokens one by one, then joins them with single spaces. */
    method Normalize(rawName: string) returns (result: string)
      ensures result == NormalizeWith(Tables(), rawName)
    {
      var tables := Tables();
      var normalized := Trim(rawName);
      normalized := CollapseSpaces(normalized);
      var parts := SplitOnWhiteSpace(normalized);
      var normalizedParts: seq<string> := [];
      for i := 0 to |parts|
        invariant normalizedParts == Segments(tables, parts[..i])
      {
        var segment := NormalizePart(parts[i]);
        SegmentsSnoc(tables, parts, i);
        normalizedParts := normalizedParts + [segment];
      }
      assert parts[..|parts|] == parts;
      result := JoinWith(normalizedParts, " ");
    }

    /** One pass of the token loop: brand, then product, then unit, then capitalisation. */
    method NormalizePart(part: string) returns (segment: string)
      ensures segment == RewriteToken(Tables(), part)
    {
      var upperPart := UpperStr(part);
      if upperPart in brandAbbreviations {
        segment := brandAbbreviations[upperPart];
      } else if upperPart in commonAbbreviations {
        segment := commonAbbreviations[upperPart];
      } else {
        var unitMatch := UnitSplit(upperPart);
        if unitMatch.Some? && unitMatch.value.1 in unitAbbreviations {
          var unitName := unitAbbreviations[unitMatch.value.1];
          segment := if unitMatch.value.0 != [] then unitMatch.value.0 + " " + unitName else unitName;
        } else {
          segment := Capitalize(part);
        }
      }
    }

    /** `addBrandAbbreviation`: stores the full name under the upper-cased abbreviation. */
    method AddBrandAbbreviation(abbr: string, fullName: string)
      modifies this
      ensures brandAbbreviations == old(brandAbbreviations)[UpperStr(abbr) := fullName]
      ensures commonAbbreviations == old(commonAbbreviations)
      ensures unitAbbreviations == old(unitAbbreviations)
    {
      brandAbbreviations := brandAbbreviations[UpperStr(abbr) := fullName];
    }

    /** `addProductAbbreviation`: stores the full name under the upper-cased abbreviation. */
    method AddProductAbbreviation(abbr: string, fullName: string)
      modifies this
      ensures commonAbbreviations == old(commonAbbreviations)[UpperStr(abbr) := fullName]
      ensures brandAbbreviations == old(brandAbbreviations)
      ensures unitAbbreviations == old(unitAbbreviations)
    {
      commonAbbreviations := commonAbbreviations[UpperStr(abbr) := fullName];
    }

    /** `normalizeBatch`: one normalised name per raw name, in order. */
    method NormalizeBatch(rawNames: seq<string>) returns (results: seq<string>)
      ensures |results| == |rawNames|
      ensures forall i :: 0 <= i < |rawNames| ==> results[i] == NormalizeWith(Tables(), rawNames[i])
    {
      var tables := Tables();
      results := [];
      for i := 0 to |rawNames|
        invariant |results| == i
        invariant forall k :: 0 <= k < i ==> results[k] == NormalizeWith(tables, rawNames[k])
      {
        var name := Normalize(rawNames[i]);
        results := results + [name];
      }
    }
  }

  // ---------------------------------------------------------------------------
  // The number-and-unit pattern matches exactly its shapes
  // ---------------------------------------------------------------------------

  /** A number text never ends with a letter. */
  lemma NumberTextEnd(t: string)
    requires ScanPatternFacts.NumberText(t)
    ensures |t| >= 1 && !IsUpper(t[|t| - 1])
  {
    var k := LeadingDigits(t);
    if k == |t| {
      assert t[..k][k - 1] == t[k - 1];
    } else if k + 1 < |t| {
      assert t[k + 1..][|t| - k - 2] == t[|t| - 1];
    }
  }

  /** `TrailingLetters` counts exactly a maximal final run of letters. */
  lemma {:induction false} TrailingLettersIs(s: string, n: nat)
    requires n <= |s| && (forall i :: |s| - n <= i < |s| ==> IsUpper(s[i]))
    requires n == |s| || !IsUpper(s[|s| - n - 1])
    ensures TrailingLetters(s) == n
  {
    if n > 0 {
      var s' := s[..|s| - 1];
      assert forall i :: 0 <= i < |s'| ==> s'[i] == s[i];
      TrailingLettersIs(s', n - 1);
    }
  }

  /** Every optional number followed by a letter run is matched, with exactly those groups. */
  lemma UnitSplitComplete(number: string, unit: string)
    requires UnitShape(number, unit)
    ensures UnitSplit(number + unit) == Some((number, unit))
  {
    var s := number + unit;
    if number != [] {
      NumberTextEnd(number);
      assert s[|s| - |unit| - 1] == number[|number| - 1];
    }
    assert forall i :: |s| - |unit| <= i < |s| ==> s[i] == unit[i - |number|];
    TrailingLettersIs(s, |unit|);
    assert s[..|s| - |unit|] == number;
    assert s[|s| - |unit|..] == unit;
  }

  // ---------------------------------------------------------------------------
  // Capitalisation
  // ---------------------------------------------------------------------------

  /** A word holding both a lower- and an upper-case letter is returned unchanged. */
  lemma CapitalizeMixed(word: string, i: nat, j: nat)
    requires i < |word| && j < |word| && IsLower(word[i]) && IsUpper(word[j])
    ensures Capitalize(word) == word
  {
    assert UpperStr(word)[i] != word[i];
    assert LowerStr(word)[j] != word[j];
  }

  /** A word without lower-case letters, or without upper-case ones, gets proper case. */
  lemma CapitalizeSingleCase(word: string)
    requires word != []
    requires (forall i :: 0 <= i < |word| ==> !IsLower(word[i])) || (forall i :: 0 <= i < |word| ==> !IsUpper(word[i]))
    ensures Capitalize(word) == [Upper(word[0])] + LowerStr(word[1..])
    ensures !IsLower(Capitalize(word)[0]) && forall i :: 1 <= i < |word| ==> !IsUpper(Capitalize(word)[i])
  {
    if forall i :: 0 <= i < |word| ==> !IsLower(word[i]) {
      assert UpperStr(word) == word;
    } else {
      assert LowerStr(word) == word;
    }
  }

  /** A word without letters (a number, a symbol) is returned unchanged. */
  lemma CapitalizeNoLetters(word: string)
    requires forall i :: 0 <= i < |word| ==> !IsLower(word[i]) && !IsUpper(word[i])
    ensures Capitalize(word) == word
  {
    if word != [] {
      CapitalizeSingleCase(word);
      assert LowerStr(word[1..]) == word[1..];
      assert [word[0]] + word[1..] == word;
    }
  }

  // ---------------------------------------------------------------------------
  // Table lookups
  // ---------------------------------------------------------------------------

  /** A token found in a table, or a known unit, is rewritten the same in any letter case. */
  lemma LookupIgnoresCase(t: AbbreviationTables, a: string, b: string)
    requires UpperStr(a) == UpperStr(b)
    requires UpperStr(a) in t.brands || UpperStr(a) in t.products
      || (UnitSplit(UpperStr(a)).Some? && UnitSplit(UpperStr(a)).value.1 in t.units)
    ensures RewriteToken(t, a) == RewriteToken(t, b)
  {
  }

  /** After a brand is added, its abbreviation in any letter case becomes the new name. */
  lemma AddedBrandApplies(t: AbbreviationTables, abbr: string, fullName: string, w: string)
    requires UpperStr(w) == UpperStr(abbr)
    ensures RewriteToken(t.(brands := t.brands[UpperStr(abbr) := fullName]), w) == fullName
  {
  }

  /** An added product abbreviation applies in any letter case unless a brand has the same key. */
  lemma AddedProductApplies(t: AbbreviationTables, abbr: string, fullName: string, w: string)
    requires UpperStr(w) == UpperStr(abbr)
    ensures var t' := t.(products := t.products[UpperStr(abbr) := fullName]);
      RewriteToken(t', w) == if UpperStr(abbr) in t.brands then t.brands[UpperStr(abbr)] else fullName
  {
  }

  /** An entry added under one key leaves the rewriting of tokens with other keys alone. */
  lemma AddedBrandKeepsOthers(t: AbbreviationTables, abbr: string, fullName: string, w: string)
    requires UpperStr(w) != UpperStr(abbr)
    ensures RewriteToken(t.(brands := t.brands[UpperStr(abbr) := fullName]), w) == RewriteToken(t, w)
  {
  }

  lemma AddedProductKeepsOthers(t: AbbreviationTables, abbr: string, fullName: string, w: string)
    requires UpperStr(w) != UpperStr(abbr)
    ensures RewriteToken(t.(products := t.products[UpperStr(abbr) := fullName]), w) == RewriteToken(t, w)
  {
  }

  // ---------------------------------------------------------------------------
  // Tokens and the joined result
  // ---------------------------------------------------------------------------

  /** The tokens joined by single spaces are the trimmed, collapsed input. */
  lemma TokensJoinBack(rawName: string)
    ensures JoinWith(Tokens(rawName), " ") == CollapseSpaces(Trim(rawName))
  {
    var c := CollapseSpaces(Trim(rawName));
    CollapseIdempotent(Trim(rawName));
    JoinSplit(c, ' ');
  }

  /** No token holds white space. */
  lemma TokensHaveNoSpace(rawName: string)
    ensures forall k, i :: 0 <= k < |Tokens(rawName)| && 0 <= i < |Tokens(rawName)[k]| ==> !IsSpace(Tokens(rawName)[k][i])
  {
    var c := CollapseSpaces(Trim(rawName));
    CollapseOnlySpace(c);
    SplitPiecesNoSpace(CollapseSpaces(c));
  }

  /** Words joined by single spaces are tokenised back into exactly those words. */
  lemma WordsTokens(words: seq<string>)
    requires SpacedWords(words)
    ensures Tokens(JoinWith(words, " ")) == words
  {
    var j := JoinWith(words, " ");
    JoinedWordsLayout(words);
    TrimUntouched(j);
    CollapseUntouched(j);
    assert forall k :: 0 <= k < |words| ==> ' ' !in words[k];
    SplitJoin(words, ' ');
  }

  /** Each word of a single-spaced name yields exactly one segment, in the same order. */
  lemma NormalizeWords(t: AbbreviationTables, words: seq<string>)
    requires SpacedWords(words)
    ensures NormalizeWith(t, JoinWith(words, " ")) == JoinWith(Segments(t, words), " ")
  {
    WordsTokens(words);
  }

  // ---------------------------------------------------------------------------
  // The built-in tables
  // ---------------------------------------------------------------------------

  /** A token in neither whole-token table whose upper-case form is a number and a known unit. */
  lemma UnitToken(t: AbbreviationTables, part: string, number: string, unit: string)
    requires UpperStr(part) !in t.brands && UpperStr(part) !in t.products
    requires UpperStr(part) == number + unit && UnitShape(number, unit) && unit in t.units
    ensures RewriteToken(t, part) == if number != [] then number + " " + t.units[unit] else t.units[unit]
  {
    UnitSplitComplete(number, unit);
  }

  /** "PK" is both a product and a unit; the product table is tried first, so it is "Pork". */
  lemma PkIsPork(w: string)
    requires |w| == 2 && Upper(w[0]) == 'P' && Upper(w[1]) == 'K'
    ensures RewriteToken(DefaultTables, w) == "Pork"
  {
    assert UpperStr(w) == "PK";
    assert "PK" !in DefaultBrands && DefaultProducts["PK"] == "Pork";
    ProductToken(DefaultTables, w, "PK");
  }

  /** A token whose upper-cased form is a brand key becomes that brand. */
  lemma BrandToken(t: AbbreviationTables, part: string, up: string)
    requires UpperStr(part) == up && up in t.brands
    ensures RewriteToken(t, part) == t.brands[up]
  {
  }

  /** A token whose upper-cased form is a product key, and no brand key, becomes that product. */
  lemma ProductToken(t: AbbreviationTables, part: string, up: string)
    requires UpperStr(part) == up && up !in t.brands && up in t.products
    ensures RewriteToken(t, part) == t.products[up]
  {
  }

  /** No key of the built-in brand or product tables has four characters. */
  lemma NoFourLetterKeys(up: string)
    requires |up| == 4
    ensures up !in DefaultBrands && up !in DefaultProducts
  {
    NoFourLetterBrand(up);
    NoFourLetterProduct(up);
  }

  lemma NoFourLetterBrand(up: string)
    requires |up| == 4
    ensures up !in DefaultBrands
  {
  }

  lemma NoFourLetterProduct(up: string)
    requires |up| == 4
    ensures up !in DefaultProducts
  {
  }

  /** "12PK" is in neither whole-token table, so the unit pattern makes it "12 Pack". */
  lemma TwelvePkIsTwelvePack(w: string)
    requires |w| == 4 && w[0] == '1' && w[1] == '2' && Upper(w[2]) == 'P' && Upper(w[3]) == 'K'
    ensures RewriteToken(DefaultTables, w) == "12 Pack"
  {
    assert UpperStr(w) == "12" + "PK";
    NoFourLetterKeys(UpperStr(w));
    LeadingDigitsIs("12", 2);
    UnitToken(DefaultTables, w, "12", "PK");
  }

  /** "gv" in any letter case is the brand Great Value. */
  lemma GvToken(w: string)
    requires |w| == 2 && Upper(w[0]) == 'G' && Upper(w[1]) == 'V'
    ensures RewriteToken(DefaultTables, w) == "Great Value"
  {
    assert UpperStr(w) == "GV";
    assert DefaultBrands["GV"] == "Great Value";
    BrandToken(DefaultTables, w, "GV");
  }

  /** "org" in any letter case is the product Organic. */
  lemma OrgToken(w: string)
    requires |w| == 3 && Upper(w[0]) == 'O' && Upper(w[1]) == 'R' && Upper(w[2]) == 'G'
    ensures RewriteToken(DefaultTables, w) == "Organic"
  {
    assert UpperStr(w) == "ORG";
    assert "ORG" !in DefaultBrands && DefaultProducts["ORG"] == "Organic";
    ProductToken(DefaultTables, w, "ORG");
  }

  /** "mlk" in any letter case is the product Milk. */
  lemma MlkToken(w: string)
    requires |w| == 3 && Upper(w[0]) == 'M' && Upper(w[1]) == 'L' && Upper(w[2]) == 'K'
    ensures RewriteToken(DefaultTables, w) == "Milk"
  {
    assert UpperStr(w) == "MLK";
    assert "MLK" !in DefaultBrands && DefaultProducts["MLK"] == "Milk";
    ProductToken(DefaultTables, w, "MLK");
  }

  /** "1gal" in any letter case is one gallon. */
  lemma OneGalToken(w: string)
    requires |w| == 4 && w[0] == '1' && Upper(w[1]) == 'G' && Upper(w[2]) == 'A' && Upper(w[3]) == 'L'
    ensures RewriteToken(DefaultTables, w) == "1 Gallon"
  {
    assert UpperStr(w) == "1" + "GAL";
    NoFourLetterKeys(UpperStr(w));
    LeadingDigitsIs("1", 1);
    assert DefaultUnits["GAL"] == "Gallon";
    UnitToken(DefaultTables, w, "1", "GAL");
    OneGallonText();
  }

  lemma OneGallonText()
    ensures "1" + " " + "Gallon" == "1 Gallon"
  {
  }

  /** The words of the documented example, and their single-spaced form. */
  lemma DocWords()
    ensures SpacedWords(["GV", "ORG", "MLK", "1GAL"])
    ensures JoinWith(["GV", "ORG", "MLK", "1GAL"], " ") == "GV ORG MLK 1GAL"
  {
    JoinFour("GV", "ORG", "MLK", "1GAL", " ");
  }

  lemma DocSegments()
    ensures Segments(DefaultTables, ["GV", "ORG", "MLK", "1GAL"]) == ["Great Value", "Organic", "Milk", "1 Gallon"]
  {
    DocTokens();
    OneGalLiteral();
    FourSegments(DefaultTables, "GV", "ORG", "MLK", "1GAL", "Great Value", "Organic", "Milk", "1 Gallon");
  }

  /** The first three words of the documented example. */
  lemma DocTokens()
    ensures RewriteToken(DefaultTables, "GV") == "Great Value"
    ensures RewriteToken(DefaultTables, "ORG") == "Organic"
    ensures RewriteToken(DefaultTables, "MLK") == "Milk"
  {
    GvToken("GV");
    OrgToken("ORG");
    MlkToken("MLK");
  }

  lemma OneGalLiteral()
    ensures RewriteToken(DefaultTables, "1GAL") == "1 Gallon"
  {
    OneGalToken("1GAL");
  }

  /** Segments are the token rewrites, one by one. */
  lemma SegmentsAre(t: AbbreviationTables, parts: seq<string>, rs: seq<string>)
    requires |rs| == |parts|
    requires forall k | 0 <= k < |parts| :: RewriteToken(t, parts[k]) == rs[k]
    ensures Segments(t, parts) == rs
  {
  }

  lemma FourSegments(t: AbbreviationTables, a: string, b: string, c: string, d: string,
                     ra: string, rb: string, rc: string, rd: string)
    requires RewriteToken(t, a) == ra && RewriteToken(t, b) == rb
    requires RewriteToken(t, c) == rc && RewriteToken(t, d) == rd
    ensures Segments(t, [a, b, c, d]) == [ra, rb, rc, rd]
  {
    var parts, rs := [a, b, c, d], [ra, rb, rc, rd];
    forall k | 0 <= k < 4
      ensures RewriteToken(t, parts[k]) == rs[k]
    {
      if k == 0 {
      } else if k == 1 {
      } else if k == 2 {
      }
    }
    SegmentsAre(t, parts, rs);
  }

  lemma DocJoin()
    ensures JoinWith(["Great Value", "Organic", "Milk", "1 Gallon"], " ") == "Great Value Organic Milk 1 Gallon"
  {
    JoinFour("Great Value", "Organic", "Milk", "1 Gallon", " ");
  }

  /** The documented example: "GV ORG MLK 1GAL" becomes "Great Value Organic Milk 1 Gallon". */
  lemma DocExample()
    ensures NormalizeWith(DefaultTables, "GV ORG MLK 1GAL") == "Great Value Organic Milk 1 Gallon"
  {
    DocWords();
    NormalizeWords(DefaultTables, ["GV", "ORG", "MLK", "1GAL"]);
    DocSegments();
    DocJoin();
  }
}
