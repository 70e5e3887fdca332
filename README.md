# SmartReceipts core, modelled in Dafny

SmartReceipts is a receipt-scanning app. It has a React Native client and an Express/MongoDB server. The user photographs a receipt. On-device OCR turns it into text blocks, and a small parser turns those into a draft receipt that the user reviews and edits before saving. The server normalises each item name through abbreviation tables and gives it a category by keyword matching. It can watch chosen items for a lower price and push an alert when a price drop meets the user's thresholds.

This project models the decision and update rules of that system:

- **Scan screen.** The OCR text parser, the manual draft, the save guard and the review-form edits, including the ECMAScript regular-expression semantics the parser depends on. Modules `ScanScreen`, `ScanPatterns`, `ScanPatternFacts` and `EcmaRegex`.
- **Item-name normaliser.** Module `ItemNormalizer`.
- **Keyword categoriser.** Module `KeywordMatcher`.
- **Price checker's rules.** The alert cascade, the quiet-hours window and the best-price update. Module `PriceCheckService`, with the shared watch record in `PriceWatches`.
- **Price-watch controller rules.** Module `PriceWatchController`.
- **Receipt controller rules.** Module `ReceiptController`.
- **Client auth store and server auth middleware.** Modules `AuthStore` and `AuthMiddleware`.
- **Client derivations.** The price-history chart (`PriceHistory`), the watch card (`WatchCard`), the dashboard charts (`Dashboard`), the receipt list (`ReceiptsList`), the receipt detail rows (`ReceiptDetail`) and the API paths (`ApiConfig`).

Shared helpers:

- `Wrappers`: `Option`.
- `Http`: a status-and-data reply.
- `JsText`: the JavaScript string and number built-ins the code calls. These are ASCII `toUpperCase` and `toLowerCase`, `trim`, `split`, `join`, `parseFloat`, and `String(n)`. parseFloat skips leading white space, then reads an optional sign, digits and an optional fraction; exponents, `Infinity` and NaN as a value are not modelled.
- `StableSort`: `Array.prototype.sort` with a numeric comparator, as a stable insertion sort.

How the model departs from the source's form:

- Money is an exact decimal (`real`).
- Times are integers (milliseconds, or minutes of the day).
- Whatever the code obtains from outside becomes a parameter of the operation. This covers:
  - the current time;
  - the stored auth record;
  - whether a storage call succeeded;
  - the verdict of `jwt.verify`;
  - the result of `User.findById`;
  - the receipt or watch document a query found;
  - the calendar date of a timestamp;
  - an environment variable.

Objects that the source changes field by field are Dafny classes whose methods are proved against a specification function:

- the normaliser's and matcher's tables;
- the auth store;
- mongoose documents;
- the request that the middleware attaches a user to.

The text parser is a method with the source's `exec` loop. Its loop invariants tie the draft to the specification functions `TotalOf` and `ItemsOf`.

`parseReceiptText` takes the first block as the store name and uses one total regex and one item regex; that is what is modelled.

Five facts about the code stand out in the model.

- **`updateUser` is never persisted** (`AuthStore.UpdateUserNotPersisted`). After a restart, the user that `setAuth` stored comes back.
- **Two fixed paths equal by-id paths as strings** (`ApiConfig.FixedPathsAreByIdPaths`). `/price-watch/alerts` and `/price-watch/savings` are also the by-id paths of the ids "alerts" and "savings". The server tells them apart by the request method, not by the path.
- **Date keys ignore the year.** The daily chart key of an entry is "<month+1>/<day>" of its date (`PriceHistory.FormatDate`), and nothing else of the date enters it, so the same day in two years shares one bar. Within those two fields the key is exact: `PriceHistory.FormatDateInjective` shows that equal keys mean equal month and day.
- **A manually created watch is never saved** (`PriceWatchController.ManualCreationRejected`); see "## Findings".
- **The daily check never records a first best price** (`PriceCheckService.BestPriceNeverRecorded`); see "## Findings".

## Model

| member | source | states |
|---|---|---|
| ScanScreen.StoreNameOf | mobile/src/screens/scan/ScanScreen.tsx:139-143 | The store name is the first OCR block's text, or "Unknown Store" when there is no block or that text is empty. |
| ScanScreen.ParseReceiptText | mobile/src/screens/scan/ScanScreen.tsx:135-179 | The parse loop produces a draft with these fields. The total is that of the first total-pattern match in the newline-joined text, and the subtotal equals it. The items are those of the successive item matches. Tax is 0, the date is the current time, the OCR method is "on-device" and the confidence is 70. |
| ScanScreen.ItemExecShape | mobile/src/screens/scan/ScanScreen.tsx:155-156 | Every `exec` of the global item pattern from `lastIndex` returns a match at or after `lastIndex`, non-empty, with a one-line name group and a price group. |
| ScanScreen.ItemMatches | mobile/src/screens/scan/ScanScreen.tsx:154-167 | The global item matches lie left to right without overlapping, each past the previous one's end. |
| ScanScreen.ItemOfKept | mobile/src/screens/scan/ScanScreen.tsx:157-166 | A match yields an item exactly when both groups are present and the name does not contain "total" in any letter case. |
| ScanScreen.ItemOfIs | mobile/src/screens/scan/ScanScreen.tsx:161-165 | A kept match's item has the trimmed name group, quantity 1, and the price group's value in whole cents. |
| ScanScreen.ItemOfParsed | mobile/src/screens/scan/ScanScreen.tsx:163 | `parseFloat` of the captured price text succeeds and gives exactly the item's price. |
| ScanScreen.TotalIsLeftmost | mobile/src/screens/scan/ScanScreen.tsx:146-147 | When the total pattern matches anywhere, the total is the value of the number after the leftmost match. |
| ScanScreen.TotalSearchLeftmost | mobile/src/screens/scan/ScanScreen.tsx:146 | The total search returns the leftmost position where "total", separators and a number occur. |
| ScanScreen.TotalWithoutHit | mobile/src/screens/scan/ScanScreen.tsx:147 | Without any total match the total is 0. |
| ScanScreen.ItemsWellFormed | mobile/src/screens/scan/ScanScreen.tsx:154-167 | Every parsed item has quantity 1, a non-negative whole-cent price, and a one-line name that does not contain "total". |
| ScanScreen.ItemOfWellFormed | mobile/src/screens/scan/ScanScreen.tsx:160-165 | What a single kept match contributes is well formed in that sense. |
| ScanScreen.SubtotalLineWins | mobile/src/screens/scan/ScanScreen.tsx:146 | For the blocks "Subtotal 5.48" and "Total 5.92" the total is 5.48, because "total" matches inside "Subtotal". |
| ScanScreen.NameAbovePrice | mobile/src/screens/scan/ScanScreen.tsx:140-155 | The blocks "Bananas" and "$1.99" give exactly one item, Bananas at 1.99, because `\s+` spans the line break. |
| ScanScreen.ManualReceipt | mobile/src/screens/scan/ScanScreen.tsx:181-192 | The manual draft has an empty store name, one blank item, zero totals, method "manual" and no confidence. |
| ScanScreen.SaveDecision | mobile/src/screens/scan/ScanScreen.tsx:194-200 | A draft is submitted, unchanged, exactly when it exists and has a non-empty store name and at least one item. Otherwise nothing is sent. |
| ScanScreen.ManualNeedsStoreName | mobile/src/screens/scan/ScanScreen.tsx:183-200 | The manual draft is refused as it stands. It is accepted once any non-empty store name is typed. |
| ScanScreen.EditStoreName | mobile/src/screens/scan/ScanScreen.tsx:242-244 | Typing a store name changes the store name only. |
| ScanScreen.EditTotal | mobile/src/screens/scan/ScanScreen.tsx:292-294 | The total becomes the parsed number, or 0 when the text does not parse. Nothing else changes. |
| ScanScreen.AddItem | mobile/src/screens/scan/ScanScreen.tsx:277-283 | Exactly one blank item is appended. Existing items and other fields are unchanged. |
| ScanScreen.CopyItems | mobile/src/screens/scan/ScanScreen.tsx:255-265 | The spread copy is a fresh array holding the same rows. |
| ScanScreen.EditItemName | mobile/src/screens/scan/ScanScreen.tsx:254-258 | Only row `index`'s name changes. Every other row and field stays as it was. |
| ScanScreen.EditItemPrice | mobile/src/screens/scan/ScanScreen.tsx:264-268 | Only row `index`'s price changes: to the parsed number, or to 0 when the text does not parse. Everything else stays. |
| ScanPatterns.ItemHitAt | mobile/src/screens/scan/ScanScreen.tsx:155 | At a position, `(.+?)\s+\$?(\d+\.?\d{2})` matches with the shortest one-line name after which a price follows. The price ends after at least three digits. |
| ScanPatterns.ItemSearch | mobile/src/screens/scan/ScanScreen.tsx:156 | The item search returns a genuine item match at or after the start position. |
| ScanPatterns.TotalHitAt | mobile/src/screens/scan/ScanScreen.tsx:146 | At a position, `total[:\s]+\$?(\d+\.?\d*)` under the `i` flag captures a number that starts with a digit and ends where `\d+\.?\d*` stops. |
| ScanPatterns.TotalSearch | mobile/src/screens/scan/ScanScreen.tsx:146 | The total search returns the leftmost total match with its single capture group. |
| ScanPatternFacts.ItemMatchAt | mobile/src/screens/scan/ScanScreen.tsx:155 | At every position, the backtracking regex matcher run on the item pattern gives exactly the item hit: the same end and the same two groups. |
| ScanPatternFacts.TotalMatchAt | mobile/src/screens/scan/ScanScreen.tsx:146 | At every position, the backtracking matcher run on the total pattern gives exactly the total hit. |
| ScanPatternFacts.ItemSearchAgrees | mobile/src/screens/scan/ScanScreen.tsx:156 | `exec` with the item pattern from `lastIndex` agrees with the item search. |
| ScanPatternFacts.TotalSearchAgrees | mobile/src/screens/scan/ScanScreen.tsx:146 | `match` with the total pattern agrees with the total search. |
| ScanPatternFacts.ItemGroups | mobile/src/screens/scan/ScanScreen.tsx:158-159 | An item match has a name group and a price group, and the price group is a digit string with an optional point and two final digits. |
| ScanPatternFacts.TotalExecFacts | mobile/src/screens/scan/ScanScreen.tsx:146-147 | A total match's group 1 is a number text. |
| ScanPatternFacts.PriceTextParses | mobile/src/screens/scan/ScanScreen.tsx:163 | `parseFloat` reads a captured price text exactly, as a whole number of cents. |
| ScanPatternFacts.NumberTextParses | mobile/src/screens/scan/ScanScreen.tsx:147 | `parseFloat` reads a captured total text exactly. |
| EcmaRegex.MatchAt | mobile/src/screens/scan/ScanScreen.tsx:146-155 | The pattern matcher, following the backtracking semantics of section 22.2 of ECMA-262, never ends a match before its start or past the input. |
| EcmaRegex.Greedy | mobile/src/screens/scan/ScanScreen.tsx:155 | A greedy quantifier's match takes at least its minimum count. |
| EcmaRegex.Lazy | mobile/src/screens/scan/ScanScreen.tsx:155 | A lazy quantifier's match takes at least the count already taken. |
| EcmaRegex.GreedyStops | mobile/src/screens/scan/ScanScreen.tsx:155 | A greedy quantifier commits to the largest count at which the rest of the pattern matches. |
| EcmaRegex.GreedyBacksOff | mobile/src/screens/scan/ScanScreen.tsx:155 | When the rest fails, a greedy quantifier gives back one character. |
| EcmaRegex.LazyStops | mobile/src/screens/scan/ScanScreen.tsx:155 | A lazy quantifier commits to the smallest count at which the rest matches. |
| EcmaRegex.LazyAdvances | mobile/src/screens/scan/ScanScreen.tsx:155 | When the rest fails, a lazy quantifier takes one more character. |
| EcmaRegex.SearchFrom | mobile/src/screens/scan/ScanScreen.tsx:156 | The search's match starts at or after the start position and lies within the input. |
| EcmaRegex.SearchIsLeftmost | mobile/src/screens/scan/ScanScreen.tsx:156 | The search returns the match at the leftmost position where the pattern matches, and none when it matches nowhere. |
| EcmaRegex.Exec | mobile/src/screens/scan/ScanScreen.tsx:156 | `exec` under the `g` flag returns a match at or after `lastIndex`. |
| EcmaRegex.Group | mobile/src/screens/scan/ScanScreen.tsx:158 | A group's text is the slice it captured, and absent when it captured nothing. |
| EcmaRegex.Run | mobile/src/screens/scan/ScanScreen.tsx:155 | A run of a character class stops before the first character outside it. |
| EcmaRegex.RunIs | mobile/src/screens/scan/ScanScreen.tsx:155 | A run is exactly as long as the maximal stretch of class characters at its start. |
| ItemNormalizer.Normalizer.constructor | server/src/utils/itemNormalizer.ts:18-80 | A normaliser starts with the built-in brand, product and unit tables. |
| ItemNormalizer.Normalizer.Normalize | server/src/utils/itemNormalizer.ts:87-134 | The token loop produces the normalised name defined by `NormalizeWith` for the current tables. |
| ItemNormalizer.Normalizer.NormalizePart | server/src/utils/itemNormalizer.ts:97-124 | One token becomes the segment `RewriteToken` defines for the current tables: a brand entry first, then a product entry, then a number-and-unit rewrite, else the capitalised token. |
| ItemNormalizer.Normalizer.AddBrandAbbreviation | server/src/utils/itemNormalizer.ts:152-155 | The brand table gains the upper-cased abbreviation mapped to the full name. The other tables are unchanged. |
| ItemNormalizer.Normalizer.AddProductAbbreviation | server/src/utils/itemNormalizer.ts:160-163 | The product table gains the upper-cased abbreviation mapped to the full name. The other tables are unchanged. |
| ItemNormalizer.Normalizer.NormalizeBatch | server/src/utils/itemNormalizer.ts:168-170 | There is one result per name, of the same length, each being that name's normalisation. |
| ItemNormalizer.Tokens | server/src/utils/itemNormalizer.ts:88-94 | There is always at least one token. |
| ItemNormalizer.TokensJoinBack | server/src/utils/itemNormalizer.ts:88-94 | The tokens joined by single spaces are the trimmed input with its white-space runs collapsed. |
| ItemNormalizer.TokensHaveNoSpace | server/src/utils/itemNormalizer.ts:94 | No token contains white space. |
| ItemNormalizer.WordsTokens | server/src/utils/itemNormalizer.ts:88-94 | Words without spaces, joined by single spaces, tokenise back to exactly those words. |
| ItemNormalizer.Segments | server/src/utils/itemNormalizer.ts:97-125 | There is one output segment per token. |
| ItemNormalizer.SegmentsSnoc | server/src/utils/itemNormalizer.ts:97-125 | Each further token appends exactly its own rewriting, so the segments are in token order. |
| ItemNormalizer.NormalizeWords | server/src/utils/itemNormalizer.ts:97-127 | A single-spaced name normalises to its words' segments joined by single spaces. |
| ItemNormalizer.LookupIgnoresCase | server/src/utils/itemNormalizer.ts:98-110 | A token found in the brand or product table is rewritten the same way in any letter case. |
| ItemNormalizer.UnitSplit | server/src/utils/itemNormalizer.ts:113-115 | A split into number and unit, when found, recomposes the token and has the shape of `^(\d+\.?\d*)?([A-Z]+)$`. |
| ItemNormalizer.UnitSplitComplete | server/src/utils/itemNormalizer.ts:113-115 | Every token of that shape is split into exactly its optional number and its letter run. |
| ItemNormalizer.TrailingLetters | server/src/utils/itemNormalizer.ts:113 | The letter run counted is the maximal run of A-Z that ends the token. |
| ItemNormalizer.UnitToken | server/src/utils/itemNormalizer.ts:112-120 | A token in neither whole-token table whose upper-case form is a number plus a known unit becomes "<number> <Unit>", or "<Unit>" without a number. |
| ItemNormalizer.PkIsPork | server/src/utils/itemNormalizer.ts:100-110 | "PK" in any letter case becomes "Pork", never "Pack", because products are tried before units. |
| ItemNormalizer.TwelvePkIsTwelvePack | server/src/utils/itemNormalizer.ts:113-120 | "12PK" is in neither whole-token table, so it becomes "12 Pack". |
| ItemNormalizer.DocExample | server/src/utils/itemNormalizer.ts:11 | "GV ORG MLK 1GAL" normalises to "Great Value Organic Milk 1 Gallon". |
| ItemNormalizer.Capitalize | server/src/utils/itemNormalizer.ts:139-147 | Capitalisation keeps the word's length. |
| ItemNormalizer.CapitalizeMixed | server/src/utils/itemNormalizer.ts:141-143 | A word with both lower- and upper-case letters is returned unchanged. |
| ItemNormalizer.CapitalizeSingleCase | server/src/utils/itemNormalizer.ts:145-146 | An all-upper or all-lower word gets its first letter upper and the rest lower. |
| ItemNormalizer.CapitalizeNoLetters | server/src/utils/itemNormalizer.ts:141-146 | A word without letters is returned unchanged. |
| ItemNormalizer.AddedBrandApplies | server/src/utils/itemNormalizer.ts:152-153 | After a brand is added, its abbreviation in any letter case becomes the new full name. |
| ItemNormalizer.AddedProductApplies | server/src/utils/itemNormalizer.ts:160-161 | After a product is added, its abbreviation in any letter case becomes the new full name, unless a brand has the same key. |
| ItemNormalizer.AddedBrandKeepsOthers | server/src/utils/itemNormalizer.ts:152-153 | Tokens with another upper-case form are rewritten as before. |
| ItemNormalizer.AddedProductKeepsOthers | server/src/utils/itemNormalizer.ts:160-161 | Tokens with another upper-case form are rewritten as before. |
| ItemNormalizer.NoFourLetterKeys | server/src/utils/itemNormalizer.ts:20-64 | No key of the built-in brand or product tables has four characters. |
| KeywordMatcher.Matcher.constructor | server/src/utils/categorization/keywordMatcher.ts:29-31 | The matcher starts with the given keyword table. |
| KeywordMatcher.Matcher.Categorize | server/src/utils/categorization/keywordMatcher.ts:38-92 | The nested loops and the sort produce exactly `Categorization` of the current table. |
| KeywordMatcher.Matcher.CategorizeBatch | server/src/utils/categorization/keywordMatcher.ts:99-101 | There is one result per name, in order, each being that name's categorisation. |
| KeywordMatcher.Matcher.AddKeywords | server/src/utils/categorization/keywordMatcher.ts:108-120 | The table becomes `WithKeywords` of the old table, and names stay distinct. |
| KeywordMatcher.MatchedInIff | server/src/utils/categorization/keywordMatcher.ts:46-49 | A keyword is matched exactly when its lower-case form occurs in the lower-cased, trimmed item. |
| KeywordMatcher.MatchedIn | server/src/utils/categorization/keywordMatcher.ts:44-50 | A category never matches more keywords than it has. |
| KeywordMatcher.Candidates | server/src/utils/categorization/keywordMatcher.ts:43-59 | There are no more candidates than categories. |
| KeywordMatcher.Winner | server/src/utils/categorization/keywordMatcher.ts:62-74 | There is no winner exactly when no keyword matches. Otherwise the winner has the most matches, and every earlier category has strictly fewer. |
| KeywordMatcher.WinnerCandidate | server/src/utils/categorization/keywordMatcher.ts:52-74 | The candidate list is empty exactly when there is no winner. Otherwise the stable descending sort puts the winner's candidate first. |
| KeywordMatcher.CategorizationWinner | server/src/utils/categorization/keywordMatcher.ts:62-91 | Without a match the result is "Other" with confidence 0 and no keywords. Otherwise it is the winner's name, its matched keywords in table order, and the confidence of its count. |
| KeywordMatcher.RoundHalfUpNearest | server/src/utils/categorization/keywordMatcher.ts:82 | `Math.round` gives the integer nearest the ratio, with halves rounded up. |
| KeywordMatcher.Confidence | server/src/utils/categorization/keywordMatcher.ts:79-83 | The confidence never exceeds 95. |
| KeywordMatcher.ConfidenceRange | server/src/utils/categorization/keywordMatcher.ts:79-83 | A matched category's confidence lies between 1 and 95 for items of up to 200 words. |
| KeywordMatcher.LowerNew | server/src/utils/categorization/keywordMatcher.ts:113-117 | No more keywords are appended than given. |
| KeywordMatcher.LowerNewIff | server/src/utils/categorization/keywordMatcher.ts:113-117 | A keyword is appended exactly when its lower-case form was absent before the call. |
| KeywordMatcher.AddKeywordsEffect | server/src/utils/categorization/keywordMatcher.ts:108-118 | An absent category is created at the end. The category's earlier keywords stay first and the new ones follow. Other categories are unchanged. |
| KeywordMatcher.AddedKeywordsPresent | server/src/utils/categorization/keywordMatcher.ts:113-117 | Afterwards the lower-case form of every given keyword is among the category's keywords. |
| KeywordMatcher.KeywordsOf | server/src/utils/categorization/keywordMatcher.ts:132-134 | An unknown category has no keywords. |
| KeywordMatcher.Names | server/src/utils/categorization/keywordMatcher.ts:125-127 | There is one name per category, in table order. |
| KeywordMatcher.Find | server/src/utils/categorization/keywordMatcher.ts:109-133 | A category found is at a position holding that name. Not found means no entry has the name. |
| KeywordMatcher.FindDistinct | server/src/utils/categorization/keywordMatcher.ts:27 | In a table without repeated names, every listed category is found at its own position. |
| PriceCheckService.ShouldSendAlert | server/src/services/priceCheckService.ts:179-219 | An alert needs alerts enabled, a time outside quiet hours, and positive savings. |
| PriceCheckService.ShouldSendAlertIff | server/src/services/priceCheckService.ts:184-218 | An alert is sent exactly when alerts are on, it is not quiet, savings are positive, and either anyDrop is set or some set percentage threshold is reached. |
| PriceCheckService.AlertMonotone | server/src/services/priceCheckService.ts:196-216 | A lower best price never silences an alert that a higher one would have sent. |
| PriceCheckService.DefaultThresholdsNeedTenPercent | server/src/services/priceCheckService.ts:205-218 | With the default thresholds, an alert needs the best price to be at most 90% of the purchase price. |
| PriceCheckService.IsQuietHours | server/src/services/priceCheckService.ts:224-227 | Quiet hours apply only when a window is set and enabled. |
| PriceCheckService.QuietHoursWindow | server/src/services/priceCheckService.ts:229-246 | An enabled window with readable times is quiet exactly inside the minute window. |
| PriceCheckService.WindowIsClockArc | server/src/services/priceCheckService.ts:240-246 | The window test, both ends inclusive and wrapping past midnight when start > end, is the clock arc from start to end. |
| PriceCheckService.OvernightWindow | server/src/services/priceCheckService.ts:241-243 | A window past midnight is quiet exactly outside the open interval (end, start). |
| PriceCheckService.ClockMinutes | server/src/services/priceCheckService.ts:234-238 | A time without a colon has no minute part, which reads as NaN (`None`), so the window is never quiet. |
| PriceCheckService.ClockMinutesOfSignedHour | server/src/services/priceCheckService.ts:234-238 | `Number` keeps a sign: "+22:00" is 22·60 minutes and "-1:30" is -60 + 30. |
| PriceCheckService.ClockMinutesOfDigits | server/src/services/priceCheckService.ts:234-238 | Digits around a colon read as hours·60 + minutes. |
| PriceCheckService.MinPrice | server/src/services/priceCheckService.ts:140 | The best price is one of the scraped prices and no greater than any of them. |
| PriceCheckService.FirstAtPrice | server/src/services/priceCheckService.ts:150 | `find` returns the first entry with that price. |
| PriceCheckService.UpdatedBest | server/src/services/priceCheckService.ts:148-157 | The intended update, with an absent best price replaced (the corrected half of a Findings row). The best price never increases and is at most every scraped price. It is either the old best or a scraped entry dated now. |
| PriceCheckService.UpdatedBestSource | server/src/services/priceCheckService.ts:149-156 | When replaced, the new best records the store and link of the first entry with the lowest price. |
| PriceCheckService.UpdatedBestAsWritten | server/src/services/priceCheckService.ts:148-157 | On the loaded document an unset nested `bestPriceFound` is an object with an undefined price: an absent best price stays absent, and a present one is updated as intended. |
| PriceCheckService.BestPriceNeverRecorded | server/src/services/priceCheckService.ts:149 | As written, a watch without a best price still has none after any number of checks that found prices, while the intended update records the cheapest price of the first check. |
| PriceCheckService.UpdatedBestSettles | server/src/services/priceCheckService.ts:149 | Rechecking with the same prices changes nothing, because the comparison is strict. |
| PriceCheckService.CheckPriceForWatch | server/src/services/priceCheckService.ts:104-169 | The last-checked time is always set. Without prices, only that changes and no alert is considered. Otherwise the best price is updated as `UpdatedBest` intends and an alert is decided from the savings against the purchase price. |
| PriceWatches.Savings | server/src/services/priceCheckService.ts:141 | Savings are positive exactly when the best price is below the purchase price. |
| PriceWatches.SavingsPercent | server/src/services/priceCheckService.ts:142 | The percentage is finite exactly for a non-zero purchase price. Otherwise it is an infinity with the sign of the savings, or NaN. |
| PriceWatches.PercentThreshold | server/src/services/priceCheckService.ts:205-216 | With a positive purchase price, reaching t percent means the best price is at most (100−t)% of it. |
| PriceWatches.PercentOfZeroPrice | server/src/services/priceCheckService.ts:205-216 | With a zero purchase price, every threshold is reached exactly when there are savings. |
| PriceWatches.WatchDocument.constructor | server/src/controllers/priceWatchController.ts:155-158 | A loaded document holds the stored watch. |
| PriceWatchController.CreatePriceWatch | server/src/controllers/priceWatchController.ts:94-125 | The intended creation: it fails with 400 exactly when itemName, originalPrice or storeName is falsy, so a price of 0 is rejected. Otherwise the result is 201 with the built record. |
| PriceWatchController.CreatePriceWatchAsWritten | server/src/controllers/priceWatchController.ts:94-134 | The record goes through the schema's validation. 400 exactly when a required field is falsy, as before. Otherwise 201 only when validation accepts the record, else the catch block's 500. |
| PriceWatchController.ManualCreationRejected | server/src/models/PriceWatch.ts:44-49 | With the schema's required receiptId, every request past the field check gets 500, while the intended creation gives 201. |
| PriceWatchController.CreatedWatchRecord | server/src/controllers/priceWatchController.ts:103-120 | A created watch keeps the request's item, store and price and belongs to the user. It has no receipt, is active and expires 30 days after now. |
| PriceWatchController.CreatedWatchDefaults | server/src/controllers/priceWatchController.ts:107-118 | Missing fields fall back as follows: the name normalisation, "Other", the current time, and the user's or the default thresholds. |
| PriceWatchController.DefaultNameShape | server/src/controllers/priceWatchController.ts:107 | The default normalised name has no capital letter, no white space at either end, and only single spaces inside. |
| PriceWatchController.DefaultNameIdempotent | server/src/controllers/priceWatchController.ts:107 | Normalising a default name again changes nothing. |
| PriceWatchController.MergeThresholds | server/src/controllers/priceWatchController.ts:169-177 | Each flag takes the request's value when it is defined and otherwise keeps the old one. |
| PriceWatchController.MergeEmpty | server/src/controllers/priceWatchController.ts:169-177 | A patch that defines nothing keeps the thresholds. |
| PriceWatchController.MergeIdempotent | server/src/controllers/priceWatchController.ts:169-177 | Applying the same patch twice is applying it once. |
| PriceWatchController.MergeSequence | server/src/controllers/priceWatchController.ts:169-177 | Two updates in a row are one update with the later value winning. |
| PriceWatchController.UpdateThresholds | server/src/controllers/priceWatchController.ts:146-179 | Missing thresholds give 400 and a missing watch gives 404, both changing nothing. Otherwise 200, and only the thresholds change, merged. |
| PriceWatchController.DeletePriceWatch | server/src/controllers/priceWatchController.ts:210-220 | A missing watch gives 404. Otherwise 200, and only isActive changes, to false. |
| PriceWatchController.OpportunityOf | server/src/controllers/priceWatchController.ts:283-296 | A watch is an opportunity exactly when a best price below the purchase price is known. Its savings are then positive and equal the purchase price minus the best. |
| PriceWatchController.Opportunities | server/src/controllers/priceWatchController.ts:282-298 | Every listed opportunity has positive savings. |
| PriceWatchController.OpportunitiesExactly | server/src/controllers/priceWatchController.ts:282-298 | An opportunity is listed exactly when some watch yields it. |
| PriceWatchController.TotalSavingsBounds | server/src/controllers/priceWatchController.ts:287 | The total is positive exactly when some opportunity exists, and it is at least each single saving. |
| PriceWatchController.SummaryOrder | server/src/controllers/priceWatchController.ts:305 | The listed opportunities are sorted by savings, largest first, and are a permutation of those found. |
| PriceWatchController.GetSavingsSummary | server/src/controllers/priceWatchController.ts:279-306 | The loop's total is the sum of the positive savings. The count is their number, and the list is the sorted opportunities. |
| StableSort.SortIsSortedPermutation | server/src/controllers/priceWatchController.ts:305 | The sort orders by key, largest first, and only rearranges. |
| StableSort.SortHead | server/src/utils/categorization/keywordMatcher.ts:72-74 | The sorted list starts with the earliest element that has the largest key. |
| ReceiptController.NumberOr | server/src/controllers/receiptController.ts:39-40 | `x \|\| fallback` takes x only when it is present and non-zero. |
| ReceiptController.ProcessItem | server/src/controllers/receiptController.ts:28-44 | The processed item keeps the name, price and confidence. Its normalised name is the normaliser's output. Quantity is the supplied one when truthy and 1 otherwise; unitPrice is the supplied one when truthy and totalPrice otherwise; absent and 0 are both falsy (see `NumberOr`). It is tracked only when priceTrack is true. |
| ReceiptController.WithDefaults | server/src/controllers/receiptController.ts:35-44 | The falsy-value defaults: quantity is the given one or 1, unitPrice is the given one or totalPrice, with absent and 0 both falsy. priceTrack is false unless it is true. |
| ReceiptController.ItemDefaults | server/src/controllers/receiptController.ts:39-40 | Case by case: a supplied non-zero quantity or unit price is kept; an absent or zero one becomes 1 or the total price. |
| ReceiptController.ProcessItems | server/src/controllers/receiptController.ts:28-45 | There is one processed item per input, in the same order. |
| ReceiptController.ProcessItemsKeepOrder | server/src/controllers/receiptController.ts:28 | Processing a longer list processes its prefix the same, so items never move. |
| ReceiptController.ItemCategory | server/src/controllers/receiptController.ts:270-278 | On update a supplied non-empty category is kept, else the keyword winner for the normalised name, as on creation (lines 30-38). |
| ReceiptController.NewReceipt | server/src/controllers/receiptController.ts:48-62 | A new receipt holds the processed items, is not verified, and has OCR method "manual" unless one is given. |
| ReceiptController.TrackedItems | server/src/controllers/receiptController.ts:75 | Every tracked item has priceTrack set. |
| ReceiptController.TrackedItemsExactly | server/src/controllers/receiptController.ts:75 | An item is tracked exactly when it is one of the receipt's items with priceTrack set. |
| ReceiptController.NewWatches | server/src/controllers/receiptController.ts:71-99 | With the user found, one watch per tracked item is created. Without the user, none. |
| ReceiptController.WatchedIffRequested | server/src/controllers/receiptController.ts:43-75 | A submitted item is tracked exactly when its priceTrack was true. |
| ReceiptController.CreateReceipt | server/src/controllers/receiptController.ts:13-99 | Without a user the result is 401. Otherwise 201 with the new receipt and its watches. |
| ReceiptController.PaginationOf | server/src/controllers/receiptController.ts:145-177 | limit defaults to 50 and skip to 0, and the total is reported. |
| ReceiptController.Page | server/src/controllers/receiptController.ts:161-164 | A page is the run of matches that starts after the skipped ones. It holds min(limit, what is left) matches, or everything left when the limit is 0, which MongoDB reads as no limit. |
| ReceiptController.HasMoreIffBeyondPage | server/src/controllers/receiptController.ts:161-176 | For a positive limit, hasMore holds exactly when some match lies beyond the returned page. For limit 0 the page runs to the end, yet hasMore holds whenever the page is not empty. |
| ReceiptController.DefaultPagination | server/src/controllers/receiptController.ts:145-176 | With the defaults, there is more exactly when there are over 50 matches. |
| ReceiptController.UpdatedHeader | server/src/controllers/receiptController.ts:260-262 | Only the store name, address and date can change. |
| ReceiptController.UpdatedAmounts | server/src/controllers/receiptController.ts:263-267 | Only the subtotal, tax, total, verified flag and notes can change. |
| ReceiptController.Updated | server/src/controllers/receiptController.ts:258-288 | Identity, owner and OCR fields never change in an update. |
| ReceiptController.UpdateNothing | server/src/controllers/receiptController.ts:260-288 | An empty update leaves the receipt as it was. |
| ReceiptController.UpdateIdempotent | server/src/controllers/receiptController.ts:260-288 | Sending the same update twice is sending it once. |
| ReceiptController.FalsyUpdateFields | server/src/controllers/receiptController.ts:260-265 | An empty store name is ignored, while a zero total is stored. |
| ReceiptController.ReceiptDocument.constructor | server/src/controllers/receiptController.ts:248 | A loaded document holds the stored receipt. |
| ReceiptController.ReceiptDocument.UpdateHeader | server/src/controllers/receiptController.ts:260-262 | The field assignments produce exactly `UpdatedHeader` of the old receipt. |
| ReceiptController.ReceiptDocument.UpdateAmounts | server/src/controllers/receiptController.ts:263-267 | The field assignments produce exactly `UpdatedAmounts` of the old receipt. |
| ReceiptController.UpdateReceipt | server/src/controllers/receiptController.ts:235-300 | 401 without a user and 404 without the receipt, both changing nothing. Otherwise 200 with the receipt updated as `Updated` says. |
| ReceiptController.Deactivate | server/src/controllers/receiptController.ts:393-402 | Deactivation keeps the number of watches. |
| ReceiptController.DeactivateEffect | server/src/controllers/receiptController.ts:393-402 | Exactly the active watches of that receipt and item name are switched off. Every other field and watch is unchanged. |
| ReceiptController.ToggleItemPriceTracking | server/src/controllers/receiptController.ts:320-408 | The result is 401 without a user, 400 when itemIndex or priceTrack is missing, 404 without the receipt, and 400 for an index outside [0, items). Those change nothing. Otherwise 200, only item i's priceTrack changes, and a watch is created or the item's watches deactivated. |
| AuthStore.Step | mobile/src/store/authStore.ts:33-93 | Every action keeps the store consistent (authenticated iff both tokens are held, and then a user too). Loading, once over, never restarts, and `loadToken` always ends it. `loadToken` and `updateUser` never touch storage. |
| AuthStore.RunConsistent | mobile/src/store/authStore.ts:27-93 | Any sequence of actions from a consistent state stays consistent. |
| AuthStore.LoadingEndsForGood | mobile/src/store/authStore.ts:69-88 | After any `loadToken`, whether or not it succeeded, the store is no longer loading. |
| AuthStore.StaysLoaded | mobile/src/store/authStore.ts:33-93 | No action sets isLoading back to true. |
| AuthStore.SetAuthLoadRoundTrip | mobile/src/store/authStore.ts:36-81 | After a successful `setAuth`, a restarted app's `loadToken` restores the same user and tokens, signed in. |
| AuthStore.ClearAuthLoadStaysSignedOut | mobile/src/store/authStore.ts:53-88 | After a successful `clearAuth`, a restarted app loads as signed out. |
| AuthStore.UpdateUserNotPersisted | mobile/src/store/authStore.ts:91-93 | The user `updateUser` sets is lost on restart. The stored user comes back. |
| AuthStore.FailedWriteChangesNothing | mobile/src/store/authStore.ts:48-66 | A failed storage write or removal changes neither the state nor storage. |
| AuthStore.UpdateUserOnlyUser | mobile/src/store/authStore.ts:91-93 | `updateUser` changes the user and nothing else. |
| AuthStore.Store.constructor | mobile/src/store/authStore.ts:27-31 | A started app has no user, no tokens, is not authenticated and is loading, over whatever storage holds. |
| AuthStore.Store.SetAuth | mobile/src/store/authStore.ts:33-51 | The fields become `Step` of the old state for `setAuth`. |
| AuthStore.Store.ClearAuth | mobile/src/store/authStore.ts:53-67 | The fields become `Step` of the old state for `clearAuth`. |
| AuthStore.Store.LoadToken | mobile/src/store/authStore.ts:69-89 | The fields become `Step` of the old state for `loadToken`. |
| AuthStore.Store.UpdateUser | mobile/src/store/authStore.ts:91-93 | The fields become `Step` of the old state for `updateUser`. |
| AuthMiddleware.BearerToken | server/src/middleware/auth.ts:27-35 | A token exists exactly when the header is present and starts with "Bearer ". The header is then "Bearer " followed by the token. |
| AuthMiddleware.BearerRoundTrip | server/src/middleware/auth.ts:35 | Every token is recovered from the header it is sent in. |
| AuthMiddleware.ClassifyError | server/src/middleware/auth.ts:64-85 | JsonWebTokenError gives 401 "Invalid token" and TokenExpiredError gives 401 "Token expired". Anything else gives 500 "Authentication failed". |
| AuthMiddleware.Authenticate | server/src/middleware/auth.ts:18-87 | No token gives 401, and no secret gives 500. The request goes on exactly when the token verifies and the user exists, with that user. Every other outcome is 401 or 500. |
| AuthMiddleware.RejectedTokenIs401 | server/src/middleware/auth.ts:48-78 | A malformed or expired token is answered 401 and never passed on. |
| AuthMiddleware.UnknownUserIs401 | server/src/middleware/auth.ts:51-57 | A verified token of an unknown user is answered 401 "User not found. Token invalid.". |
| AuthMiddleware.AuthRequest.constructor | server/src/middleware/auth.ts:18 | A request starts with its header and no user. |
| AuthMiddleware.AuthenticateRequest | server/src/middleware/auth.ts:59-62 | The user is attached exactly when the request goes on. An answered request's user is untouched. |
| AuthMiddleware.AccessTokenExpiry | server/src/middleware/auth.ts:94 | Access tokens live "15m" unless configured. |
| AuthMiddleware.RefreshTokenExpiry | server/src/middleware/auth.ts:107 | Refresh tokens live "7d" unless configured. |
| PriceHistory.FormatDate | mobile/src/screens/priceWatch/PriceHistoryScreen.tsx:63-66 | A date key has at least three characters and contains '/'. |
| PriceHistory.FormatDateInjective | mobile/src/screens/priceWatch/PriceHistoryScreen.tsx:63-66 | Equal keys mean equal month and day. |
| PriceHistory.SortedHistory | mobile/src/screens/priceWatch/PriceHistoryScreen.tsx:92-94 | The sorted copy has as many entries as the history. |
| PriceHistory.SortedHistoryAscending | mobile/src/screens/priceWatch/PriceHistoryScreen.tsx:92-94 | The copy holds the same entries, ordered by scrapedAt ascending. |
| PriceHistory.Grouped | mobile/src/screens/priceWatch/PriceHistoryScreen.tsx:97-105 | The dictionary's keys are exactly the labels, and there are labels exactly when there are entries. |
| PriceHistory.GroupedCoversEntries | mobile/src/screens/priceWatch/PriceHistoryScreen.tsx:97-103 | Every entry's day is a key. |
| PriceHistory.GroupedMinimum | mobile/src/screens/priceWatch/PriceHistoryScreen.tsx:99-101 | Each key keeps its day's lowest-priced entry, the first such, because the comparison is strict. |
| PriceHistory.GroupedOrder | mobile/src/screens/priceWatch/PriceHistoryScreen.tsx:97-105 | Labels are distinct and ordered by each day's first appearance. |
| PriceHistory.DailyMinimum | mobile/src/screens/priceWatch/PriceHistoryScreen.tsx:97-103 | For every entry's day, the kept entry is the day's first lowest-priced one. |
| PriceHistory.DailyLabelOrder | mobile/src/screens/priceWatch/PriceHistoryScreen.tsx:105 | Labels are distinct and in order of first appearance in the sorted history. |
| PriceHistory.DailyPrices | mobile/src/screens/priceWatch/PriceHistoryScreen.tsx:97-106 | The `reduce` loop produces the grouping's labels, and data of the same length holding each kept entry's price. |
| PriceHistory.PriceChart | mobile/src/screens/priceWatch/PriceHistoryScreen.tsx:92-106 | The chart is grouped from the sorted copy, and it has data exactly when the history is non-empty. |
| WatchCard.CardSavings | mobile/src/screens/priceWatch/PriceWatchListScreen.tsx:54-56 | Savings are 0 without a best price, otherwise the purchase price minus the best. They are positive exactly when a best price below the purchase price is known. |
| WatchCard.CardPercent | mobile/src/screens/priceWatch/PriceWatchListScreen.tsx:57-59 | The percentage is 0 without a best price, otherwise the savings over the purchase price times 100. |
| WatchCard.DaysLeft | mobile/src/screens/priceWatch/PriceWatchListScreen.tsx:62-64 | Days left is the ceiling of the remaining milliseconds over one day: d days cover the remaining time and d−1 do not. |
| WatchCard.DaysLeftUnique | mobile/src/screens/priceWatch/PriceHistoryScreen.tsx:117-119 | That count of days is the only one bracketing the remaining time. |
| WatchCard.WarningIffWithinSixDays | mobile/src/screens/priceWatch/PriceWatchListScreen.tsx:77-81 | The warning style shows exactly when at most six days' worth of milliseconds remain. |
| WatchCard.CardPriceSection | mobile/src/screens/priceWatch/PriceWatchListScreen.tsx:96-119 | The best-price section shows exactly when a best price exists, with that price, store, savings and percentage. Otherwise "Checking prices...". |
| Dashboard.ColorForIndex | mobile/src/screens/dashboard/DashboardScreen.tsx:204-216 | Every colour comes from the palette. |
| Dashboard.ColorCycle | mobile/src/screens/dashboard/DashboardScreen.tsx:204-216 | The colours repeat every 8 indices, and index 0 is "#007AFF". |
| Dashboard.PieData | mobile/src/screens/dashboard/DashboardScreen.tsx:76-82 | The pie holds the first min(5, n) categories in order, slice i coloured by index i. |
| Dashboard.PieColorsDistinct | mobile/src/screens/dashboard/DashboardScreen.tsx:76-82 | The pie's slices all have different colours. |
| Dashboard.LastSeven | mobile/src/screens/dashboard/DashboardScreen.tsx:85-88 | `slice(-7)` keeps the last min(7, n) elements. |
| Dashboard.PeriodLabel | mobile/src/screens/dashboard/DashboardScreen.tsx:85 | The label is the text after the last '-' of the period, or all of it. It contains no '-'. |
| Dashboard.BarData | mobile/src/screens/dashboard/DashboardScreen.tsx:85-88 | Without trends, the labels are [] and the data is [0]. Otherwise the last min(7, n) trends in order, labelled by their period's last segment. |
| Dashboard.QueryWindow | mobile/src/screens/dashboard/DashboardScreen.tsx:30-31 | The query window ends now and spans exactly 30 days. |
| ReceiptsList.AfterDelete | mobile/src/screens/receipts/ReceiptsScreen.tsx:59-61 | A receipt is kept exactly when it was listed and has another id. |
| ReceiptsList.AfterDeleteConcat | mobile/src/screens/receipts/ReceiptsScreen.tsx:60 | The filter works piecewise, so kept receipts keep their order. |
| ReceiptsList.AfterDeleteAbsent | mobile/src/screens/receipts/ReceiptsScreen.tsx:60 | A list without that id is left as it is. |
| ReceiptsList.AfterDeleteIdempotent | mobile/src/screens/receipts/ReceiptsScreen.tsx:60 | Deleting the same receipt again changes nothing. |
| ReceiptsList.ItemCountLabel | mobile/src/screens/receipts/ReceiptsScreen.tsx:112 | The label starts with the count and ends in 's' exactly when the count is not 1. |
| ReceiptsList.AmountOrZero | mobile/src/screens/receipts/ReceiptsScreen.tsx:85 | A missing amount reads "0.00". A present one is shown formatted. |
| ReceiptsList.DetailAmounts | mobile/src/screens/receipts/ReceiptsScreen.tsx:79-85 | The tip line appears exactly for a present, positive tip. Subtotal and tax fall back to "0.00", and the total is shown as is. |
| ReceiptDetail.ToggleRequestFor | mobile/src/screens/receipts/ReceiptDetailScreen.tsx:67-70 | The request sends the negation of the displayed value, with a missing priceTrack displayed as off. |
| ReceiptDetail.ToggleFlipsSwitch | mobile/src/screens/receipts/ReceiptDetailScreen.tsx:67-75 | Once stored, the requested value shows the opposite of before. |
| ReceiptDetail.StartUpdate | mobile/src/screens/receipts/ReceiptDetailScreen.tsx:64 | Starting adds the index and leaves every other index as it was. |
| ReceiptDetail.FinishUpdate | mobile/src/screens/receipts/ReceiptDetailScreen.tsx:78-83 | Finishing, on success or failure, removes the index and leaves the others. |
| ReceiptDetail.UpdateLifecycle | mobile/src/screens/receipts/ReceiptDetailScreen.tsx:64-83 | The index is in the set for the whole request, and finishing restores the set. The item shows a spinner during the request and its switch, with the displayed value, after it. |
| ReceiptDetail.ControlFor | mobile/src/screens/receipts/ReceiptDetailScreen.tsx:169-178 | The tracking slot shows a spinner exactly while the item's index is in updatingItems (`ShowsSpinner`), and otherwise a switch that is on only when priceTrack is true. |
| ReceiptDetail.PriceLines | mobile/src/screens/receipts/ReceiptDetailScreen.tsx:155-161 | The price column shows the total, and the "quantity × unit price" line exactly when quantity > 1 (`ShowsQuantityLine`). |
| ReceiptDetail.DefaultQuantityShowsTotalOnly | mobile/src/screens/receipts/ReceiptDetailScreen.tsx:157-161 | An item saved without a quantity, or with quantity 0, gets quantity 1 and shows its total alone. |
| ReceiptDetail.UpdatesInterleave | mobile/src/screens/receipts/ReceiptDetailScreen.tsx:64-83 | Requests for different items do not disturb each other, in whatever order they finish. |
| ApiConfig.ApiUrl | mobile/src/config/api.ts:3 | The environment value is used when set and non-empty, otherwise the fixed default. |
| ApiConfig.ReceiptById | mobile/src/config/api.ts:20 | The path is the receipts path, '/', then the id. |
| ApiConfig.PriceWatchById | mobile/src/config/api.ts:31 | The path is the price-watch path, '/', then the id. |
| ApiConfig.PriceWatchHistory | mobile/src/config/api.ts:32 | The path is the by-id path followed by "/history". |
| ApiConfig.PriceWatchThresholds | mobile/src/config/api.ts:33 | The path is the by-id path followed by "/thresholds". |
| ApiConfig.BuildersInjective | mobile/src/config/api.ts:20-33 | Distinct ids give distinct paths, for every builder. |
| ApiConfig.FixedPathsAreByIdPaths | mobile/src/config/api.ts:29-35 | The alerts and savings paths equal the by-id paths of "alerts" and "savings". |

## Findings

| source | as written | input that shows it | evidently intended | confidence | as-written member | corrected member |
|---|---|---|---|---|---|---|
| server/src/controllers/priceWatchController.ts:103-105 | A manual watch is created with `receiptId: null`, but the schema requires receiptId (server/src/models/PriceWatch.ts:44-49). Validation fails and the catch block answers 500. | Any request with itemName "Milk", originalPrice 3.5 and storeName "Walmart" | 201 with a watch that has no receipt | not executed | PriceWatchController.ManualCreationRejected | PriceWatchController.CreatePriceWatch |
| server/src/services/priceCheckService.ts:149 | The daily check loads full documents (lines 39-42), and `bestPriceFound` is a nested path (server/src/models/PriceWatch.ts:122-135), which such a document returns as an object even when nothing is stored. `!watch.bestPriceFound` is then false and `bestPrice < undefined` is false, so the best price is never set. | A watch created without a best price, checked with one price 2.5 | The best price becomes 2.5 with its store and link | not executed | PriceCheckService.BestPriceNeverRecorded | PriceCheckService.UpdatedBest |

## Left out

- `PriceCheckService.UpdatedBest` and `PriceCheckService.CheckPriceForWatch` take an absent best price as falsy and replace it, as intended. On the documents the daily check loads, an unset nested path is never falsy, so as written the first best price is never recorded (`PriceCheckService.UpdatedBestAsWritten`, see "## Findings"). As a consequence, the watch list keeps showing "Checking prices...", the savings summary's `$exists` query finds nothing, and an alert's store is "Unknown Store"; those consequences are not modelled separately.

- Image picking, resizing, on-device OCR, Alert dialogs and rendering: the OCR output is an input list of block texts.
- `ScanScreen.EditItemName` and `ScanScreen.EditItemPrice` model the row change by value. The source's spread copies only the array, so the row object is shared with the previous state and assigned in place. That aliasing is not modelled.
- The date pattern in `parseReceiptText` is matched but its result is never used. The draft's date is always the current time, which is passed in as text.
- Letter case is mapped for ASCII only. `toUpperCase` and `toLowerCase` of other characters are not modelled.
- `parseFloat` skips leading white space, then reads an optional sign, digits and an optional fraction. Exponents, `Infinity` and NaN as a value are not modelled: a text whose number uses them reads as NaN.
- `AuthStore.Step`: each action of the store is modelled as one atomic transition. The source awaits AsyncStorage before each `set`, so actions can interleave at the `await`. For example, a `loadToken` that read a stored record can sign the user back in after a `clearAuth` emptied storage, and two racing `setAuth` calls can leave memory from one and storage from the other. Those interleavings are not modelled.
- The keyword table's JSON is not part of this model. The table is a parameter of the matcher.
- `KeywordMatcher.Confidence` uses exact rational rounding. JavaScript's float division may round differently at exact .5 ties.
- `PriceWatchController.GetSavingsSummary`: totalSavings is the exact sum. The source's `parseFloat(totalSavings.toFixed(2))` rounding to cents is not modelled.
- `toFixed` formatting on screens is abstracted. An amount is either "formatted" or replaced by a fixed text.
- Float division in percentages is exact. Only division by a zero price is modelled, as IEEE infinity or NaN.
- `WatchCard.DaysLeft` is the exact integer ceiling. The source's float division and `Math.ceil` may differ near a whole day.
- `subDays` around a daylight-saving change is not modelled. The dashboard window is exactly 30 × 24 hours.
- Time zones and `new Date(string)` parsing are not modelled. The calendar date of a timestamp is a parameter (`dateOf`), and dates are integers.
- `PriceHistory.SortedHistory`: ordering and permutation are proved, but stability for equal timestamps is not stated. The grouping lemmas hold for any order the sort picks.
- Date keys are never integer-like, so `Object.keys` returns them in insertion order. The model relies on this and does not model integer-key ordering.
- Not modelled as I/O:
  - the MongoDB models and their schema validation;
  - every `find`, `save`, `create`, `updateMany` and `countDocuments` call (documents are records or classes, and query results are parameters);
  - a failing save.
- The Redis price cache is not modelled. The cron schedule, batching, sleeps and the scraper are not modelled either. Scraped prices are an input list.
- Saving price history is not modelled. Nor is sending the push alert after the decision.
- JWT signing and verification and bcrypt are not modelled. The verify verdict and the user lookup are function parameters. The `generate*` token functions are modelled only as their expiry defaults.
- AsyncStorage is an optional stored record plus a success flag per call. A stored record that fails to parse counts as a failed read.
- `getReceiptById`, `deleteReceipt` and the query filters of `getReceipts` are database calls. Only the `hasMore` rule and the page size are modelled.
- The `PriceWatch.create` for a toggled item is returned as an action rather than performed.
- In `ReceiptController.ToggleItemPriceTracking`, itemIndex is an integer. A non-integer JSON number, which JavaScript would accept and use as a missing array slot, is not modelled.
- `PriceCheckService.ClockMinutes`: `Number` is modelled on optionally signed whole numbers with white space around them. Decimal parts ("8.5"), exponents ("1e1"), hexadecimal, octal and binary literals ("0x8") and "Infinity" read as numbers in the source but as NaN here, so a window written with them is never quiet in the model.
- `ReceiptController.PaginationOf`: limit and skip are integers. `Number` of a non-numeric query value is NaN, which makes `hasMore` false; that case is not modelled. `ReceiptController.Page` takes non-negative values only; a negative skip, which MongoDB rejects, is not modelled.
- `PriceWatchController.CreatePriceWatch` is the intended creation. In the program as written its 201 answer is never reached, because the schema rejects the record's missing receiptId (see "## Findings").
- `PriceWatchController.CreatePriceWatchAsWritten`: of the schema's validators only the outcome is a parameter. `ManualCreationRejected` instantiates it with the required receiptId alone. The category enum, `min: 0` and the `trim` of required strings are not modelled.
- The logger is not modelled. Neither are Express wiring, routes, the request validator or the analytics aggregation pipelines.
