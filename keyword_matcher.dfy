/**
 * The server's keyword categoriser.  The keyword table maps each category
 * name to its keywords, in the order the table lists them.  An item name is
 * lower-cased and trimmed; a keyword matches when its lower-case form occurs
 * in it.  Every category with at least one matching keyword becomes a
 * candidate; the candidates are stably sorted by their number of matches,
 * most first, and the first one wins.  The table is loaded from a JSON file
 * that is not part of this model, so it is a constructor parameter.
 */
module KeywordMatcher {
  import opened Wrappers
  import opened JsText
  import opened StableSort

  /** One category of the table and its keywords, in table order. */
  datatype CategoryEntry = CategoryEntry(name: string, words: seq<string>)

  /** What `categorize` returns. */
  datatype CategoryMatch = CategoryMatch(category: string, confidence: nat, matchedKeywords: seq<string>)

  /** A category with its matching keywords and their number. */
  datatype Candidate = Candidate(category: string, count: nat, keywords: seq<string>)

  /** A table is an object: no category name occurs twice. */
  predicate DistinctNames(table: seq<CategoryEntry>) {
    forall i, j :: 0 <= i < j < |table| ==> table[i].name != table[j].name
  }

  /** The position of a category in the table. */
  function Find(table: seq<CategoryEntry>, name: string): (r: Option<nat>)
    ensures r.Some? ==> r.value < |table| && table[r.value].name == name
    ensures r.None? ==> forall i :: 0 <= i < |table| ==> table[i].name != name
  {
    if table == [] then None
    else if table[0].name == name then Some(0)
    else
      match Find(table[1..], name)
      case Some(i) => Some(i + 1)
      case None => None
  }

  // ---------------------------------------------------------------------------
  // Matching
  // ---------------------------------------------------------------------------

  /** `itemName.toLowerCase().trim()`. */
  function NormalizedItem(itemName: string): string {
    Trim(LowerStr(itemName))
  }

  /** The keywords among `words` whose lower-case form occurs in `item`, in table order. */
  function MatchedIn(item: string, words: seq<string>): (r: seq<string>)
    ensures |r| <= |words|
  {
    if words == [] then []
    else
      var n := |words| - 1;
      var prev := MatchedIn(item, words[..n]);
      if Contains(item, LowerStr(words[n])) then prev + [words[n]] else prev
  }

  /** The candidate a category would give. */
  function CandidateOf(item: string, e: CategoryEntry): Candidate {
    var m := MatchedIn(item, e.words);
    Candidate(e.name, |m|, m)
  }

  /** The keywords matched among one more word of the list. */
  lemma MatchedInStep(item: string, words: seq<string>, k: nat)
    requires k < |words|
    ensures MatchedIn(item, words[..k + 1]) ==
      if Contains(item, LowerStr(words[k])) then MatchedIn(item, words[..k]) + [words[k]] else MatchedIn(item, words[..k])
  {
    assert words[..k + 1][..k] == words[..k];
  }

  /** Number of keywords of the `t`-th category that match. */
  function CountAt(table: seq<CategoryEntry>, item: string, t: nat): nat
    requires t < |table|
  {
    CandidateOf(item, table[t]).count
  }

  /** The candidates, one per category with at least one match, in table order. */
  function Candidates(table: seq<CategoryEntry>, item: string): (r: seq<Candidate>)
    ensures |r| <= |table|
  {
    if table == [] then []
    else
      var n := |table| - 1;
      var prev := Candidates(table[..n], item);
      var c := CandidateOf(item, table[n]);
      if c.count > 0 then prev + [c] else prev
  }

  /** The candidates of one more category of the table. */
  lemma CandidatesStep(table: seq<CategoryEntry>, item: string, c: nat)
    requires c < |table|
    ensures Candidates(table[..c + 1], item) ==
      if CandidateOf(item, table[c]).count > 0 then Candidates(table[..c], item) + [CandidateOf(item, table[c])]
      else Candidates(table[..c], item)
  {
    assert table[..c + 1][..c] == table[..c];
  }

  /** The sort key of `matches.sort((a, b) => b.count - a.count)`. */
  function CountKey(c: Candidate): real {
    c.count as real
  }

  // ---------------------------------------------------------------------------
  // The winner, stated on the table
  // ---------------------------------------------------------------------------

  /** The first category with the most matches, when any keyword matches at all. */
  function Winner(table: seq<CategoryEntry>, item: string): (w: Option<nat>)
    ensures w.None? ==> forall t :: 0 <= t < |table| ==> CountAt(table, item, t) == 0
    ensures w.Some? ==> w.value < |table| && CountAt(table, item, w.value) > 0
    ensures w.Some? ==> forall t :: 0 <= t < |table| ==> CountAt(table, item, t) <= CountAt(table, item, w.value)
    ensures w.Some? ==> forall t :: 0 <= t < w.value ==> CountAt(table, item, t) < CountAt(table, item, w.value)
  {
    if table == [] then None
    else
      var n := |table| - 1;
      var prefix := table[..n];
      var w := Winner(prefix, item);
      assert forall t :: 0 <= t < n ==> CountAt(prefix, item, t) == CountAt(table, item, t);
      if CountAt(table, item, n) > 0 && (w.None? || CountAt(table, item, n) > CountAt(table, item, w.value)) then Some(n)
      else w
  }

  /** The winner's candidate sits at its table position among the candidates, and is their first maximum. */
  lemma {:induction false} WinnerCandidate(table: seq<CategoryEntry>, item: string)
    ensures Winner(table, item).None? <==> Candidates(table, item) == []
    ensures Winner(table, item).Some? ==>
      var w := Winner(table, item).value;
      var p := |Candidates(table[..w], item)|;
      IsFirstMax(CountKey, Candidates(table, item), p)
      && Candidates(table, item)[p] == CandidateOf(item, table[w])
  {
    if table != [] {
      var n := |table| - 1;
      var prefix := table[..n];
      WinnerCandidate(prefix, item);
      var cs' := Candidates(prefix, item);
      var w' := Winner(prefix, item);
      var c := CandidateOf(item, table[n]);
      if c.count > 0 {
        assert Candidates(table, item) == cs' + [c];
        if w'.Some? {
          var p' := |Candidates(prefix[..w'.value], item)|;
          assert prefix[..w'.value] == table[..w'.value];
          assert prefix[w'.value] == table[w'.value];
          if c.count > cs'[p'].count {
            FirstMaxNew(CountKey, cs', c);
          } else {
            FirstMaxKept(CountKey, cs', c, p');
          }
        } else {
          FirstMaxNew(CountKey, cs', c);
        }
      } else if w'.Some? {
        assert prefix[..w'.value] == table[..w'.value];
        assert prefix[w'.value] == table[w'.value];
      }
    }
  }

  // ---------------------------------------------------------------------------
  // Confidence
  // ---------------------------------------------------------------------------

  /** `Math.round(n / d)` for a non-negative ratio: the nearest integer, halves rounded up. */
  function RoundHalfUp(n: nat, d: nat): (r: nat)
    requires d > 0
  {
    (2 * n + d) / (2 * d)
  }

  /** The rounded value lies within half of `n / d`, a half rounding up: `r - 1/2 <= n/d < r + 1/2`. */
  lemma RoundHalfUpNearest(n: nat, d: nat)
    requires d > 0
    ensures var r := RoundHalfUp(n, d);
      d * (2 * r - 1) <= 2 * n < d * (2 * r + 1)
  {
    var m := 2 * n + d;
    var q := m / (2 * d);
    assert m == 2 * d * q + m % (2 * d);
    assert 0 <= m % (2 * d) < 2 * d;
    assert d * (2 * q - 1) == 2 * d * q - d;
    assert d * (2 * q + 1) == 2 * d * q + d;
  }

  /** `Math.min(95, Math.round(count / Math.max(words, 1) * 100))`. */
  function Confidence(count: nat, words: nat): (r: nat)
    ensures r <= 95
  {
    var d := if words > 1 then words else 1;
    var p := RoundHalfUp(100 * count, d);
    if p < 95 then p else 95
  }

  // ---------------------------------------------------------------------------
  // What categorize returns
  // ---------------------------------------------------------------------------

  /** `categorize(itemName)` against `table`. */
  function Categorization(table: seq<CategoryEntry>, itemName: string): CategoryMatch {
    var item := NormalizedItem(itemName);
    var cands := Candidates(table, item);
    if cands == [] then CategoryMatch("Other", 0, [])
    else
      var best := SortBy(CountKey, cands)[0];
      CategoryMatch(best.category, Confidence(best.count, |SplitOnWhiteSpace(item)|), best.keywords)
  }

  /**
   * With no matching keyword the item is "Other" with confidence 0 and no
   * keywords; otherwise the first category with the most matching keywords
   * wins, with exactly its matching keywords.
   */
  lemma CategorizationWinner(table: seq<CategoryEntry>, itemName: string)
    ensures var item := NormalizedItem(itemName);
      var r := Categorization(table, itemName);
      match Winner(table, item)
      case None => r == CategoryMatch("Other", 0, [])
      case Some(w) =>
        r.category == table[w].name
        && r.matchedKeywords == MatchedIn(item, table[w].words)
        && r.confidence == Confidence(|MatchedIn(item, table[w].words)|, |SplitOnWhiteSpace(item)|)
  {
    var item := NormalizedItem(itemName);
    WinnerCandidate(table, item);
    if Winner(table, item).Some? {
      var w := Winner(table, item).value;
      SortHead(CountKey, Candidates(table, item), |Candidates(table[..w], item)|);
    }
  }

  /** A keyword matches exactly when its lower-case form occurs in the item. */
  lemma {:induction false} MatchedInIff(item: string, words: seq<string>, w: string)
    ensures w in MatchedIn(item, words) <==> w in words && Contains(item, LowerStr(w))
  {
    if words != [] {
      var n := |words| - 1;
      MatchedInIff(item, words[..n], w);
      assert words == words[..n] + [words[n]];
    }
  }

  /** A matched category has a confidence between 1 and 95 when the item has at most 200 words. */
  lemma ConfidenceRange(count: nat, words: nat)
    requires 1 <= count && words <= 200
    ensures 1 <= Confidence(count, words) <= 95
  {
    var d := if words > 1 then words else 1;
    assert 2 * (100 * count) + d >= 2 * d;
  }

  // ---------------------------------------------------------------------------
  // Adding keywords
  // ---------------------------------------------------------------------------

  /** The lower-case forms of the keywords not already in `existing`, in order. */
  function LowerNew(existing: seq<string>, kws: seq<string>): (r: seq<string>)
    ensures |r| <= |kws|
  {
    if kws == [] then []
    else
      var n := |kws| - 1;
      var prev := LowerNew(existing, kws[..n]);
      if LowerStr(kws[n]) in existing then prev else prev + [LowerStr(kws[n])]
  }

  /** The table after `addKeywords(category, kws)`. */
  function WithKeywords(table: seq<CategoryEntry>, category: string, kws: seq<string>): seq<CategoryEntry> {
    match Find(table, category)
    case Some(i) => table[i := CategoryEntry(category, table[i].words + LowerNew(table[i].words, kws))]
    case None => table + [CategoryEntry(category, LowerNew([], kws))]
  }

  /** `getCategoryKeywords`: a category's keywords, none for an unknown category. */
  function KeywordsOf(table: seq<CategoryEntry>, category: string): (r: seq<string>)
    ensures (forall i :: 0 <= i < |table| ==> table[i].name != category) ==> r == []
  {
    match Find(table, category)
    case Some(i) => table[i].words
    case None => []
  }

  /** The category names, in table order. */
  function Names(table: seq<CategoryEntry>): (r: seq<string>)
    ensures |r| == |table|
  {
    seq(|table|, i requires 0 <= i < |table| => table[i].name)
  }

  /** In a table without repeated names, a listed category is found at its own position. */
  lemma FindDistinct(table: seq<CategoryEntry>, i: nat)
    requires DistinctNames(table) && i < |table|
    ensures Find(table, table[i].name) == Some(i)
  {
  }

  /** A keyword lands in `LowerNew` exactly when its lower-case form was not there before. */
  lemma {:induction false} LowerNewIff(existing: seq<string>, kws: seq<string>, w: string)
    ensures w in LowerNew(existing, kws) <==> w !in existing && exists k :: 0 <= k < |kws| && w == LowerStr(kws[k])
  {
    if kws != [] {
      var n := |kws| - 1;
      LowerNewIff(existing, kws[..n], w);
      if w == LowerStr(kws[n]) && w !in existing {
        assert w == LowerStr(kws[n]);
      }
      assert forall k :: 0 <= k < n ==> kws[..n][k] == kws[k];
    }
  }

  /**
   * `addKeywords` creates the category when it is missing, keeps the old
   * keywords in front, appends the lower-case forms of the new ones, and leaves
   * every other category as it was.
   */
  lemma AddKeywordsEffect(table: seq<CategoryEntry>, category: string, kws: seq<string>)
    requires DistinctNames(table)
    ensures var t' := WithKeywords(table, category, kws);
      DistinctNames(t')
      && KeywordsOf(t', category) == KeywordsOf(table, category) + LowerNew(KeywordsOf(table, category), kws)
      && (forall c :: c != category ==> KeywordsOf(t', c) == KeywordsOf(table, c))
      && Names(t') == Names(table) + (if Find(table, category).Some? then [] else [category])
  {
    match Find(table, category)
    case Some(i) => AddToListedCategory(table, category, kws, i);
    case None => AddNewCategory(table, category, kws);
  }

  /** `AddKeywordsEffect` for a category already in the table, at position `i`. */
  lemma AddToListedCategory(table: seq<CategoryEntry>, category: string, kws: seq<string>, i: nat)
    requires DistinctNames(table) && Find(table, category) == Some(i)
    ensures var t' := WithKeywords(table, category, kws);
      DistinctNames(t')
      && KeywordsOf(t', category) == KeywordsOf(table, category) + LowerNew(KeywordsOf(table, category), kws)
      && (forall c :: c != category ==> KeywordsOf(t', c) == KeywordsOf(table, c))
      && Names(t') == Names(table)
  {
    var t' := WithKeywords(table, category, kws);
    assert forall j :: 0 <= j < |t'| ==> t'[j].name == table[j].name;
    FindDistinct(t', i);
    forall c | c != category
      ensures KeywordsOf(t', c) == KeywordsOf(table, c)
    {
      match Find(table, c)
      case Some(j) => FindDistinct(t', j);
      case None =>
    }
  }

  /** `AddKeywordsEffect` for a category not yet in the table. */
  lemma AddNewCategory(table: seq<CategoryEntry>, category: string, kws: seq<string>)
    requires DistinctNames(table) && Find(table, category).None?
    ensures var t' := WithKeywords(table, category, kws);
      DistinctNames(t')
      && KeywordsOf(t', category) == KeywordsOf(table, category) + LowerNew(KeywordsOf(table, category), kws)
      && (forall c :: c != category ==> KeywordsOf(t', c) == KeywordsOf(table, c))
      && Names(t') == Names(table) + [category]
  {
    var t' := WithKeywords(table, category, kws);
    assert forall j :: 0 <= j < |table| ==> t'[j] == table[j];
    FindDistinct(t', |table|);
    forall c | c != category
      ensures KeywordsOf(t', c) == KeywordsOf(table, c)
    {
      match Find(table, c)
      case Some(j) => FindDistinct(t', j);
      case None =>
    }
  }

  /** After `addKeywords`, the lower-case form of every keyword given is among the category's keywords. */
  lemma AddedKeywordsPresent(table: seq<CategoryEntry>, category: string, kws: seq<string>, k: nat)
    requires DistinctNames(table) && k < |kws|
    ensures LowerStr(kws[k]) in KeywordsOf(WithKeywords(table, category, kws), category)
  {
    AddKeywordsEffect(table, category, kws);
    LowerNewIff(KeywordsOf(table, category), kws, LowerStr(kws[k]));
  }

  // ---------------------------------------------------------------------------
  // The matcher object
  // ---------------------------------------------------------------------------

  class Matcher {
    var keywords: seq<CategoryEntry>

    predicate Valid()
      reads this
    {
      DistinctNames(keywords)
    }

    /** The matcher starts with the given keyword table. */
    constructor (table: seq<CategoryEntry>)
      requires DistinctNames(table)
      ensures Valid() && keywords == table
    {
      keywords := table;
    }

    /** `categorize`: one pass over the categories, one over each category's keywords, then the sort. */
    method Categorize(itemName: string) returns (r: CategoryMatch)
      ensures r == Categorization(keywords, itemName)
    {
      var normalizedItem := Trim(LowerStr(itemName));
      var table := keywords;
      var matches: seq<Candidate> := [];
      for c := 0 to |table|
        invariant matches == Candidates(table[..c], normalizedItem)
      {
        var entry := table[c];
        var matchedKeywords: seq<string> := [];
        for k := 0 to |entry.words|
          invariant matchedKeywords == MatchedIn(normalizedItem, entry.words[..k])
        {
          MatchedInStep(normalizedItem, entry.words, k);
          if Contains(normalizedItem, LowerStr(entry.words[k])) {
            matchedKeywords := matchedKeywords + [entry.words[k]];
          }
        }
        assert entry.words[..|entry.words|] == entry.words;
        CandidatesStep(table, normalizedItem, c);
        if |matchedKeywords| > 0 {
          matches := matches + [Candidate(entry.name, |matchedKeywords|, matchedKeywords)];
        }
      }
      assert table[..|table|] == table;
      if |matches| == 0 {
        return CategoryMatch("Other", 0, []);
      }
      matches := SortBy(CountKey, matches);
      var bestMatch := matches[0];
      var wordsInItem := |SplitOnWhiteSpace(normalizedItem)|;
      var confidence := Confidence(bestMatch.count, wordsInItem);
      r := CategoryMatch(bestMatch.category, confidence, bestMatch.keywords);
    }

    /** `categorizeBatch`: one result per name, in order. */
    method CategorizeBatch(itemNames: seq<string>) returns (results: seq<CategoryMatch>)
      ensures |results| == |itemNames|
      ensures forall i :: 0 <= i < |itemNames| ==> results[i] == Categorization(keywords, itemNames[i])
    {
      var table := keywords;
      results := [];
      for i := 0 to |itemNames|
        invariant |results| == i
        invariant forall k :: 0 <= k < i ==> results[k] == Categorization(table, itemNames[k])
      {
        var m := Categorize(itemNames[i]);
        AppendResult(results, m, table, itemNames, i);
        results := results + [m];
      }
    }

    /** Appending the categorisation of the next name extends the element-wise results. */
    static lemma AppendResult(results: seq<CategoryMatch>, m: CategoryMatch, table: seq<CategoryEntry>,
                              itemNames: seq<string>, i: nat)
      requires i < |itemNames| && |results| == i
      requires forall k :: 0 <= k < i ==> results[k] == Categorization(table, itemNames[k])
      requires m == Categorization(table, itemNames[i])
      ensures forall k :: 0 <= k < i + 1 ==> (results + [m])[k] == Categorization(table, itemNames[k])
    {
    }

    /** `addKeywords`: creates the category if needed and appends the new keywords, lower-cased. */
    method AddKeywords(category: string, kws: seq<string>)
      requires Valid()
      modifies this
      ensures Valid()
      ensures keywords == WithKeywords(old(keywords), category, kws)
    {
      AddKeywordsEffect(keywords, category, kws);
      var idx := Find(keywords, category);
      if idx.None? {
        keywords := keywords + [CategoryEntry(category, [])];
        idx := Some(|keywords| - 1);
      }
      var existing := keywords[idx.value].words;
      var newKeywords := LowerNew(existing, kws);
      keywords := keywords[idx.value := CategoryEntry(category, existing + newKeywords)];
    }

    /** `getCategories`. */
    function Categories(): seq<string>
      reads this
    {
      Names(keywords)
    }

    /** `getCategoryKeywords`. */
    function CategoryKeywords(category: string): seq<string>
      reads this
    {
      KeywordsOf(keywords, category)
    }
  }
}
