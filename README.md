# Recommendation engine of the Scanbot backend, modelled in Dafny

This project models the product recommendation engine of the Scanbot backend
(`services/recommendationService.js`). It proves properties of the model.

Given a user's stored orders and the product catalog, the engine does the following:

- It drops the products the user already bought.
- It folds every line item of every order into a preference profile:
  - the accumulated quantity per category, kept in a `Map` in insertion order;
  - the observed price range, whose minimum starts at `Infinity`;
  - the mean of the truthy ratings and the number of rated items.
- It asks an inference service to rank the candidates. The request carries the three heaviest categories and the candidate list.
- It turns the reply into at most five recommendations:
  - The reply is decoded as JSON. If that fails, the widest `[...]` span is decoded instead.
  - Entries naming an unknown product are dropped.
  - Each kept product gets a confidence score. That score is scaled by the entry's relevance label and clamped to [0.5, 1.0].
  - The five most confident entries are kept.
  - A shorter list is topped up with the best-scoring candidates it does not already hold.
- When the inference call throws, or the reply cannot be processed, a deterministic ranker answers instead. It keeps the candidates in a purchased category and inside the observed price range, ranked by confidence, then by category weight.

One module per component, one file each:

| file | module | models |
|---|---|---|
| `common.dfy` | `Common` | `Option`, JavaScript numbers with NaN (`Num`), `filter`, `slice(0, n)`, and the stable sort that `Array.prototype.sort` performs with the engine's comparators |
| `records.dfy` | `Records` | the records, the parsed JSON value, property reads, and the category `Map` as an insertion-ordered entry list |
| `preferences.dfy` | `Preferences` | `analyzeUserPreferences`, as a method with the source's two nested loops, proved against a fold over the line items |
| `candidates.dfy` | `Candidates` | the not-yet-purchased candidates |
| `prompt.dfy` | `Prompt` | the structured content of the request (the three heaviest categories and the candidate summaries) |
| `scoring.dfy` | `Scoring` | `calculateConfidenceScore` and its five sub-scores |
| `reasons.dfy` | `Reasons` | `generateRecommendationReasons`, as a function and as the `push`-building method |
| `fallback.dfy` | `Fallback` | `getBasicRecommendations` |
| `decoder.dfy` | `Decoder` | the tolerant JSON decoding of the reply, and the filter to known products |
| `ranking.dfy` | `Ranking` | `processAIResponse`: relevance scaling, the top five, the top-up, the fallback on errors, and the imperative copy-and-push steps |
| `engine.dfy` | `Engine` | `generateRecommendations` and `getAIRecommendations`, with the stores and the inference client as parameters |

Numbers are modelled as exact reals.

- IEEE rounding is not modelled.
- JavaScript's special values change behaviour in two places, and both are modelled explicitly.
- The first is the minimum price, which stays `Infinity` when the history has orders but no line items. There `priceMin` is `None`:
  - Every confidence is then NaN (`Scoring.ConfidenceScore`).
  - The price-fit reason is never given.
  - The fallback filter rejects every product.
  - Sorting by NaN confidences keeps the reply's order (`Ranking.UnsetRangeKeepsReplyOrder`).
- The second is the relevance lookup, where two labels reach inherited object members and give NaN. This is the one finding below. The pipeline uses the corrected lookup, as "## Left out" says.
- `JSON.parse` is a parameter `parse: string -> Option<Json>`.
- The inference call is a parameter `infer: Request -> Completion`.

Four behaviours of the code are easy to miss. The model keeps each as the code has it:

- **The confidence can exceed 1.0.** The source's comments label the purchase-frequency sub-score as lying in 0-1 (line 236), and the final step as a normalisation to the 0.5-1.0 range (line 255). But the sub-score divides the category quantity by the number of *rated* items (`totalPurchases`), not by the total quantity. One rated purchase of ten drinks gives a drink a score of 1.67. This holds for the fallback and for the top-up, which are not clamped (`Scoring.ScoreCanExceedOne`, `Fallback.FallbackConfidenceCanExceedOne`). Only the relevance-scaled AI entries are clamped to [0.5, 1.0].
- **Duplicates are kept.** The reply is not de-duplicated, so a reply naming a product twice yields it twice (`Ranking.DuplicatesSurvive`).
- **The final list is not sorted as a whole.** The top-up is appended after the AI prefix (`Ranking.TopUpPrefix`), and each part is sorted on its own (`Ranking.AiPrefixIsBest`, `Ranking.BackfillOrdered`).
- **A blank reply is an error, not a fallback.** Other AI failures fall back to the deterministic ranker. But a completion with no content, or with empty content, makes `getAIRecommendations` throw a 500 `ApiError`. That error reaches the caller (`Engine.AiOutcome`).

The category map is a JavaScript `Map`, so its keys are distinct. `Ranking.ProcessAIResponse`, `Ranking.CopyWeights` and `Engine.GetAIRecommendations` state this as `DistinctKeys(...)`. `Preferences.ProfileSummary` proves it for every profile the engine builds.

## Model

| member | source | states |
|---|---|---|
| Common.Clamp | services/recommendationService.js:291-294 | `Math.min(1.0, Math.max(0.5, x))` lands in [0.5, 1.0], leaves a value already inside unchanged, and passes NaN through |
| Common.Take | services/recommendationService.js:309 | `slice(0, n)` is the first `min(n, length)` elements, a sub-multiset of the input |
| Common.Filter | services/recommendationService.js:277-278 | `filter` keeps only elements satisfying the predicate, never more than the input, and each comes from the input |
| Common.FilterKeepsMember | services/recommendationService.js:277-278 | every kept element is an element of the input |
| Common.FilterKeepsAll | services/recommendationService.js:277-278 | every element satisfying the predicate is kept |
| Common.FilterNone | services/recommendationService.js:51-53 | a filter whose predicate nothing satisfies returns the empty list |
| Common.Insert | services/recommendationService.js:308 | inserting into the sorted list adds exactly that element |
| Common.SortDesc | services/recommendationService.js:308 | the sort returns a permutation of its input |
| Common.OutranksIsStrictOrder | services/recommendationService.js:308 | "placed strictly before" by a `b - a` comparator is asymmetric and transitive |
| Common.InsertSorted | services/recommendationService.js:308 | inserting into a sorted list keeps it sorted |
| Common.SortDescSorted | services/recommendationService.js:308 | the sort's result is in descending order of the key |
| Common.SortDescKeepsSorted | services/recommendationService.js:308 | stability: a list already in order (e.g. all keys NaN) comes back unchanged |
| Common.InsertAtEnd | services/recommendationService.js:308 | an element outranking nothing is placed after all others |
| Common.AllNaNIsSorted | services/recommendationService.js:308 | a list whose keys are all NaN is already in order, since a NaN comparator result reads as "equal" |
| Common.TakeKeepsBest | services/recommendationService.js:308-309 | truncating a sorted list keeps it sorted, and nothing dropped outranks anything kept |
| Common.SortedPrefixIsBest | services/recommendationService.js:308-309 | sort-then-slice yields `min(n, length)` elements, in order, from the input, and no element left out outranks any kept |
| Records.Field | services/recommendationService.js:278 | a property read on a parsed object finds a value exactly when a member with that name exists, and the value is one of that name's members |
| Records.Weight | services/recommendationService.js:222 | `map.get(c) \|\| 0`; its contract is stated by `Records.WeightFound`, `Records.PutGet` and `Records.WeightBelowMax` |
| Records.Put | services/recommendationService.js:99-102 | `map.set(c, w)`; its contract is stated by `Records.PutKeys`, `Records.PutGet` and `Records.PutKeepsDistinct` |
| Records.WeightFound | services/recommendationService.js:222 | `map.get(c) \|\| 0` is 0 for an absent category and the entry's weight for a present one |
| Records.PutKeys | services/recommendationService.js:99-102 | `map.set` adds the key, and a new key is appended at the end (insertion order) |
| Records.PutGet | services/recommendationService.js:99-102 | after `map.set(c, w)`, `get(c)` is `w` and every other key reads as before |
| Records.PutKeepsDistinct | services/recommendationService.js:99-102 | `map.set` never creates a second entry for a key |
| Records.MaxWeight | services/recommendationService.js:223 | `Math.max(...map.values())` bounds every weight and is attained by one |
| Records.WeightBelowMax | services/recommendationService.js:222-224 | every reported weight, present or defaulted, is at most a positive maximum |
| Records.WeightNonNegative | services/recommendationService.js:222 | a map of non-negative weights reports a non-negative weight for any category |
| Preferences.AnalyzeUserPreferences | services/recommendationService.js:87-122 | the nested loops compute exactly the profile of all line items of all orders |
| Preferences.AddItem | services/recommendationService.js:96-114 | the inner loop body updates category weight, price range and rating statistics for one item |
| Preferences.Step | services/recommendationService.js:96-114 | one iteration of the inner loop; `Preferences.StepCategories` states its effect on the category map |
| Preferences.ProfileOf | services/recommendationService.js:87-122 | the profile of all line items; `Preferences.ProfileSummary` states it field by field against reference definitions |
| Preferences.TallyCategories | services/recommendationService.js:98-102 | each category's weight is the total quantity bought in it; the map holds exactly the categories bought, each once |
| Preferences.StepCategories | services/recommendationService.js:98-102 | one item adds its quantity to its own category only and keeps keys distinct |
| Preferences.CategorySetSnoc | services/recommendationService.js:98-102 | one more item adds its category to the set of categories bought |
| Preferences.TallyPriceRange | services/recommendationService.js:104-107 | every item price lies in the range; the minimum is some item's price and unset exactly when there is no item; the maximum is 0 or some item's price |
| Preferences.TallyRatings | services/recommendationService.js:109-113 | the fold counts the truthy-rated items and sums their ratings |
| Preferences.RatingSumWithoutRated | services/recommendationService.js:109-119 | with no rated item the rating sum stays 0 |
| Preferences.TallyWeightsNonNegative | services/recommendationService.js:99-102 | non-negative quantities give non-negative category weights |
| Preferences.StepWeightsNonNegative | services/recommendationService.js:99-102 | one step keeps all category weights non-negative |
| Preferences.PutNonNegative | services/recommendationService.js:99-102 | setting a non-negative weight keeps the map non-negative |
| Preferences.ProfileSummary | services/recommendationService.js:87-122 | the profile field by field against reference definitions: per-category totals, distinct keys, the price range, the rated count and the mean of the truthy ratings (0 when none) |
| Preferences.ProfilePriceOrdered | services/recommendationService.js:104-107 | once an item is seen the price range is not inverted |
| Preferences.ProfileWeightsNonNegative | services/recommendationService.js:99-102 | non-negative quantities give a profile with non-negative category weights |
| Candidates.Available | services/recommendationService.js:44-53 | every candidate is a catalog product whose id no stored line item carries |
| Candidates.CandidatesComplete | services/recommendationService.js:51-53 | every catalog product not bought is a candidate |
| Candidates.CandidateIdsNotPurchased | services/recommendationService.js:44-53 | candidate ids are catalog ids and disjoint from the purchased ids |
| Candidates.AllBoughtNoneAvailable | services/recommendationService.js:51-53 | a user who bought every catalog product has no candidate |
| Prompt.TopCategories | services/recommendationService.js:175-177 | the request lists `min(3, #categories)` entries of the category map |
| Prompt.TopCategoriesAreHeaviest | services/recommendationService.js:175-177 | the listed categories are in descending weight, and no category left out weighs more than one listed |
| Prompt.ComposeRequest | services/recommendationService.js:174-188 | the request lists at most three categories, none lighter than a category left out, and one summary per candidate carrying that candidate's id |
| Scoring.CategoryMatch | services/recommendationService.js:222-224 | the category sub-score is 0.5 when no weight is positive, at most 1 for a weight up to the maximum, and non-negative for a non-negative weight |
| Scoring.PriceDivisor | services/recommendationService.js:229-230 | `width \|\| 1` replaces only a zero width and is never zero |
| Scoring.PriceMatch | services/recommendationService.js:227-230 | the price sub-score is non-negative, at most 1 on a non-inverted range, and 1 at the range's midpoint |
| Scoring.RatingMatch | services/recommendationService.js:233-234 | the rating sub-score lies in [0, 1] and is 1 exactly when the rating equals the average |
| Scoring.FrequencyMatch | services/recommendationService.js:237-239 | the frequency sub-score is 0.5 with no rated item, and exceeds 1 exactly when the category quantity exceeds the rated count |
| Scoring.ConfidenceScore | services/recommendationService.js:212-257 | the score is NaN exactly when the minimum price is still `Infinity`, and otherwise at least 0.5 for a non-negative category weight |
| Scoring.ScoreAtLeastHalf | services/recommendationService.js:246-256 | with non-negative weights every numeric score is at least 0.5 |
| Scoring.ScoreAtMostOne | services/recommendationService.js:212-257 | the score is at most 1.0 when the range is not inverted and the category quantity does not exceed the rated count |
| Scoring.ScoreCanExceedOne | services/recommendationService.js:236-256 | one rated purchase of ten drinks gives a drink the score 1.67 |
| Scoring.DrinksOutscoreStationery | services/recommendationService.js:212-257 | a product in the favourite category, mid-range and near the average rating outscores an unbought, out-of-range, low-rated one |
| Reasons.ReasonsFor | services/recommendationService.js:334-357 | at most three reasons, in the fixed order category, price, rating; each present exactly when its test holds |
| Reasons.GenerateRecommendationReasons | services/recommendationService.js:334-357 | the `push`-built list equals the reason list |
| Fallback.ScoreAll | services/recommendationService.js:374-382 | the mapped list has one record per product, built from that product |
| Fallback.Eligible | services/recommendationService.js:368-373 | the fallback filter; `Fallback.BasicFromEligible` and `Fallback.BasicKeepsBest` state what it admits |
| Fallback.BasicRecommendations | services/recommendationService.js:359-394 | the fallback has exactly `min(5, #eligible)` records, a sub-multiset of the scored eligible candidates |
| Fallback.BasicFromEligible | services/recommendationService.js:367-382 | every fallback record is an eligible candidate with its raw score, a number of at least 0.5 |
| Fallback.BasicIds | services/recommendationService.js:367-382 | every fallback record is for a candidate |
| Fallback.BasicOrdered | services/recommendationService.js:383-393 | the fallback is ordered by confidence, and by category weight among equal confidences |
| Fallback.OrderedByConfidence | services/recommendationService.js:383-392 | comparator order means confidence descending, then weight descending |
| Fallback.BasicKeepsBest | services/recommendationService.js:383-393 | no eligible candidate left out outranks one that was kept |
| Fallback.BasicComplete | services/recommendationService.js:367-393 | with at most five eligible candidates, all of them are returned |
| Fallback.FallbackConfidenceCanExceedOne | services/recommendationService.js:359-394 | the fallback can return a confidence of 1.67 |
| Fallback.ScoreCanExceedOneProfile | services/recommendationService.js:87-122 | the profile of one rated ten-drink purchase, field by field |
| Decoder.FirstOpen | services/recommendationService.js:265 | the index of the first `[`, or none when there is none |
| Decoder.LastClose | services/recommendationService.js:265 | the index of the last `]`, or none when there is none |
| Decoder.BracketSpan | services/recommendationService.js:265-270 | the greedy pattern matches exactly when some `[` precedes some `]`, and the match runs from the first `[` to the last `]` |
| Decoder.TolerantDecode | services/recommendationService.js:262-271 | the decoded value is the whole reply's parse when that succeeds; otherwise it is the parse of the bracketed span, and there is none when no span exists |
| Decoder.ProseWrappedArrayDecodes | services/recommendationService.js:262-271 | an array wrapped in bracket-free prose is recovered when the whole reply does not parse |
| Decoder.FindProduct | services/recommendationService.js:276-280 | the product map finds an id exactly when some candidate carries it, and returns the last such candidate |
| Decoder.KnownEntries | services/recommendationService.js:277-278 | the filter throws exactly when the list holds `null`; otherwise every kept entry is read from an element of the reply that names a candidate (`NamedIn`) |
| Decoder.KnownEntriesComplete | services/recommendationService.js:277-278 | every entry naming a known candidate is kept |
| Ranking.Lower | services/recommendationService.js:290 | lowercasing keeps the length, maps each ASCII capital to its lowercase letter, and leaves every other character alone |
| Ranking.Multiplier | services/recommendationService.js:286-290 | the relevance label selects 1.2, 1.0 or 0.8; a missing or `null` label gives 1.0, and any other non-string throws |
| Ranking.MultiplierIgnoresCase | services/recommendationService.js:286-290 | labels match regardless of ASCII case: 1.2 exactly for `high`, 0.8 exactly for `low`, 1.0 otherwise |
| Ranking.Adjusted | services/recommendationService.js:291-294 | the scaled confidence lies in [0.5, 1.0] unless the raw score is NaN |
| Ranking.AdjustedAsWritten | services/recommendationService.js:286-294 | as written, the confidence is NaN exactly when the raw score is NaN or the lowercased label is `constructor` or `__proto__`, and otherwise lies in [0.5, 1.0] |
| Ranking.InheritedLabelGivesNaN | services/recommendationService.js:286-294 | as written, the labels `Constructor` and `__PROTO__` give a NaN confidence, while the corrected lookup gives a number in [0.5, 1.0] |
| Ranking.AsWrittenAgreesElsewhere | services/recommendationService.js:286-294 | for every other label the lookup as written and the corrected one agree |
| Ranking.AiRecommendation | services/recommendationService.js:279-306 | an AI record's confidence is in [0.5, 1.0] or NaN (exactly when the range is unset), and its reasons end with the reply's explanation |
| Ranking.AiStage | services/recommendationService.js:279-307 | the mapping throws exactly when some entry's relevance throws; otherwise it gives one record per entry, for that entry's product, ending with its explanation |
| Ranking.AiScored | services/recommendationService.js:262-307 | the scored reply entries, or a throw; `Ranking.AiScoredFromReply` and `Ranking.AiScoredComplete` state that they are exactly the known entries of the reply |
| Ranking.AiRanked | services/recommendationService.js:308-309 | the AI prefix exists exactly when scoring succeeds, and holds at most five of the scored records; `Ranking.AiPrefixIsBest` states that they are the most confident |
| Ranking.UsedIdsMembers | services/recommendationService.js:311 | the used-id set holds exactly the ids the prefix carries |
| Ranking.Backfill | services/recommendationService.js:311-324 | the top-up; `Ranking.BackfillLength`, `Ranking.BackfillIdsUnused`, `Ranking.BackfillFromUnused`, `Ranking.BackfillOrdered` and `Ranking.BackfillKeepsBest` state its contract |
| Ranking.TopUp | services/recommendationService.js:310-326 | the push of the top-up; `Ranking.TopUpPrefix`, `Ranking.TopUpLength` and `Ranking.TopUpUnused` state its contract |
| Ranking.RankReply | services/recommendationService.js:259-332 | the processed reply has at most five records, and is the fallback whenever processing throws |
| Ranking.AiScoredFromReply | services/recommendationService.js:262-307 | a processed reply decoded to an array, and each scored record is built from an element of that array naming a known candidate, with that element's relevance multiplier |
| Ranking.AiScoredComplete | services/recommendationService.js:277-307 | every reply entry naming a known candidate is scored |
| Ranking.AiPrefixIsBest | services/recommendationService.js:308-309 | the AI prefix is the `min(5, n)` most confident scored entries, most confident first |
| Ranking.BackfillLength | services/recommendationService.js:312-324 | the top-up has `5 - prefix length` records when that many candidates are unused, else all unused ones |
| Ranking.BackfillIdsUnused | services/recommendationService.js:311-313 | the top-up repeats no id of the prefix, and every id is a candidate's |
| Ranking.BackfillFromUnused | services/recommendationService.js:312-322 | each top-up record is an unused candidate with its raw, unscaled score and its reasons |
| Ranking.BackfillEntry | services/recommendationService.js:312-322 | the candidate behind one top-up record |
| Ranking.ConfidenceDescending | services/recommendationService.js:308 | comparator order means non-increasing numeric confidences |
| Ranking.BackfillOrdered | services/recommendationService.js:323 | the top-up is in descending order of raw score |
| Ranking.BackfillKeepsBest | services/recommendationService.js:323-324 | no unused candidate left out of the top-up scores above one taken |
| Ranking.ScoredUnused | services/recommendationService.js:312-322 | every unused candidate is scored for the top-up |
| Ranking.TopUpPrefix | services/recommendationService.js:310-326 | the final list starts with the AI prefix unchanged |
| Ranking.TopUpLength | services/recommendationService.js:310-326 | a prefix of five is left alone; a shorter one is filled up to five when enough candidates are unused |
| Ranking.TopUpUnused | services/recommendationService.js:310-326 | the records after the prefix are candidates and repeat none of the prefix's ids |
| Ranking.AiScoredIds | services/recommendationService.js:277-280 | every scored reply entry is for a candidate |
| Ranking.RankReplyIds | services/recommendationService.js:259-332 | every processed recommendation, on either path, is for a candidate |
| Ranking.AiPrefixIds | services/recommendationService.js:308-309 | every AI-prefix record is for a candidate |
| Ranking.TopUpIds | services/recommendationService.js:310-326 | topping up a prefix of candidates gives a list of candidates |
| Ranking.ThrowingRepliesFallBack | services/recommendationService.js:259-331 | a reply with no JSON and no bracket, a non-array value, or a `null` element yields the fallback list |
| Ranking.RaisingRelevanceFallsBack | services/recommendationService.js:286-331 | a known entry whose relevance is neither a string nor `null` makes processing throw, and the fallback answers |
| Ranking.DuplicatesSurvive | services/recommendationService.js:277-309 | a reply naming the same candidate twice yields it twice at the head of the list |
| Ranking.TwinEntries | services/recommendationService.js:277-278 | two copies of a known entry are both kept |
| Ranking.TwinStage | services/recommendationService.js:279-307 | two copies of an entry map to two equal records |
| Ranking.UnsetRangeKeepsReplyOrder | services/recommendationService.js:308-309 | with the range unset, the prefix is the first five scored entries in reply order |
| Ranking.CopyWeights | services/recommendationService.js:272-275 | copying the profile's map entry by entry gives the same map, in the same order |
| Ranking.ProcessAIResponse | services/recommendationService.js:259-332 | the imperative steps (decode, copy, filter and score, top five, push the top-up) compute the processed reply |
| Engine.AiOutcome | services/recommendationService.js:136-172 | an error exactly for a blank answer, and then the 500 `Invalid response from AI service`; the fallback when the call throws; otherwise at most five candidate records |
| Engine.Recommend | services/recommendationService.js:23-85 | no orders gives an empty list; an empty catalog gives the 404; the only errors are those two; any list has at most five records for catalog products the user has not bought |
| Engine.FailedCallFallsBack | services/recommendationService.js:55-70 | when the inference call throws, the user gets the fallback ranking of the products not bought yet |
| Engine.EverythingBoughtGivesNothing | services/recommendationService.js:51-57 | a user who bought every catalog product gets an empty list, not an error |
| Engine.GetAIRecommendations | services/recommendationService.js:136-172 | the request, call, blank check and processing compute the AI outcome |
| Engine.GenerateRecommendations | services/recommendationService.js:23-85 | the early returns, the 404, candidate selection, the profile and the AI path compute the service's outcome |

## Left out

- The inference client and its provider and model settings are not modelled. The call is the parameter `infer`. Its reply is `Completion`: the call threw, or it answered with an optional content.
- The stores (`PurchaseHistory.find`, `Product.find`) are not modelled. The orders and the catalog are given as sequences.
  - The orders are taken in the order the store returns them, newest first. That order only decides the insertion order of the category map, and so the tie order among equally heavy categories.
  - Store errors, and the outer 500 `Failed to generate recommendations` they become, are not modelled. Every other error inside the core is either an `ApiError`, which is rethrown, or is caught on the way.
- The constructor's API-key check and the environment configuration are not modelled.
- `console.log` and `console.error` are not modelled.
- The internals of `JSON.parse` are not modelled; it is the parameter `parse`.
- `prepareProductFeatures` is not modelled: `Product` is already the feature record, with its id as a string.
- Prompt wording, `toFixed(1)` formatting and `JSON.stringify` layout are not modelled. `Prompt.ComposeRequest` keeps only the encoded fields.
- The English reason sentences are not modelled; the reasons are tags. The reply's `explanation` is kept as the raw JSON value it was.
- IEEE floating point (rounding, overflow) is not modelled: numbers are exact reals. The two special values that change behaviour are modelled: the `Infinity` minimum price and the NaN it produces.
- Sorting a mix of NaN and numeric confidences is not modelled. With the corrected relevance lookup it does not arise: NaN then comes only from the unset price range, and that makes every score of a request NaN. As written, a `constructor` label on one entry would put a NaN next to numbers in the same sort.
- Ranking.AiStage: uses the corrected relevance lookup (`Ranking.Multiplier`), not the lookup as written. For the labels `constructor` and `__proto__` it gives a confidence in [0.5, 1.0] where the code gives NaN (see "## Findings").
- Ranking.AiScored: uses the corrected relevance lookup, through `Ranking.AiStage`.
- Ranking.AiRanked: uses the corrected relevance lookup, through `Ranking.AiStage`.
- Ranking.RankReply: uses the corrected relevance lookup, through `Ranking.AiStage`.
- Ranking.ProcessAIResponse: uses the corrected relevance lookup, through `Ranking.AiStage`.
- Engine.AiOutcome: uses the corrected relevance lookup, through `Ranking.RankReply`.
- Engine.Recommend: uses the corrected relevance lookup, through `Ranking.RankReply`.
- Engine.GetAIRecommendations: uses the corrected relevance lookup, through `Ranking.ProcessAIResponse`.
- Engine.GenerateRecommendations: uses the corrected relevance lookup, through `Ranking.ProcessAIResponse`.
- Ranking.Lower: only ASCII letters are lowercased. JavaScript's full Unicode `toLowerCase` is not modelled.
- Preferences.AnalyzeUserPreferences: every stored order is assumed to have an `items` list. A record without one, which would throw in `forEach`, is not modelled.
- Engine.AiOutcome: a reply whose `choices` list is missing or empty counts as an answer without content (`Answered(None)`), as optional chaining yields `undefined` for it.

## Findings

| source | as written | input that shows it | evidently intended | confidence | as-written member | corrected member |
|---|---|---|---|---|---|---|
| services/recommendationService.js:286-290 | The relevance multiplier indexes an object literal with the lowercased label, then applies `\|\| 1.0`. The labels `constructor` and `__proto__` find members inherited from `Object.prototype`. Those are truthy, so they pass `\|\| 1.0`, and multiplying by them gives NaN. | A reply entry with `"relevance": "Constructor"` (or `"__PROTO__"`) for a known product gets a NaN confidence (`Ranking.InheritedLabelGivesNaN`). | Only `high`, `medium` and `low` select a factor; any other label gives 1.0, so the confidence stays in [0.5, 1.0]. | not executed | Ranking.AdjustedAsWritten | Ranking.Multiplier |
