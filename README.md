# Client categorizer ranking pipeline, in Dafny

This project models the ranking core of the client categorizer. The categorizer tags FX sales
clients and trade ideas against a taxonomy, builds weighted client profiles from observations and
RFQ (request-for-quote) history, and ranks clients for an idea, ideas for a client, and a client's
portfolio managers (PMs). The model covers these parts:

- **Text normalisation** (`TextProcessing`). Tokenising, collapsing whitespace, synonym phrase
  replacement and the stopword filter.
- **Rule tagging** (`Tagging`). The tag-term map, term matching and tag extraction.
- **Scoring features** (`Features`). Min-max scaling, BM25 post-processing and cosine similarity.
- **Matching** (`Matching`). Family weights per client type, taxonomy overlap, top matching terms
  and the score blend.
- **Observation profiles** (`Profiles`). Recency and observation weights, and the weighted
  profile text.
- **RFQ signals** (`Rfq`). The normalisers, trade-date and notional parsing, sector
  classification, region fallbacks and signal extraction from free text.
- **The service** (`Service`). Candidate search with region fallback, ranking of clients for an
  idea and of ideas for a client, PM drill-downs, and the tag merge. `Service.ClientCategorizer`
  is a class holding the service's taxonomy, synonym rows and synonym map.
- **The three CSV loaders** (`IngestRfq`, `IngestPm`, `IngestTrade`). Each row loop is modelled
  as a run over a parsed sheet, with the counters, caches and aggregate buckets it keeps.

Supporting modules:

- `Strings`: the ASCII behaviour of Python's `str` methods.
- `Sorting`: Python's stable `sorted`, and `sorted(...)[:k]`.
- `Calendar`: `datetime.date`, `isoformat`, `strptime` and `strftime` on numeric formats.
- `Seqs`: maps and flat maps over sequences.
- `Wrappers`: `Option` and `Result`.

Loops in the source become methods with loop invariants. Each method is proved against a
function that specifies it. Python dicts whose iteration order matters become association lists
with distinct keys. Where order never matters, they become Dafny maps. The repository (SQLite),
`math.exp`, `date.today()`, the BM25 library and the embedder are not modelled as code. They are
parameters of the functions that use them, and the properties hold for every value of those
parameters. Where the code and its tests disagree, the model follows the code (see "Left out").

## Model

| member | source | states |
|---|---|---|
| TextProcessing.Tokenize | core/text_processing.py:63-64 | Every token is a non-empty run of token characters |
| TextProcessing.StopwordsAreNotTenors | core/text_processing.py:78 | No stopword is a tenor token, so the tenor exception of the filter never rescues a stopword |
| TextProcessing.TokenizeJoin | core/text_processing.py:63-64 | Tokens joined by single spaces tokenise back to the same tokens |
| TextProcessing.WordsOfJoinedTokens | core/text_processing.py:83 | Tokens joined by single spaces split at whitespace back into the same tokens |
| TextProcessing.JoinedTokensLower | core/text_processing.py:63-64 | Joined tokens contain no upper-case letter |
| TextProcessing.CollapseRuns | core/text_processing.py:40 | Collapsing whitespace runs keeps the words of the text |
| TextProcessing.StripRuns | core/text_processing.py:40 | Stripping keeps the words of the text |
| TextProcessing.NormalizeWhitespaceIsJoinOfWords | core/text_processing.py:39-40 | `normalize_whitespace(s)` is the words of `s`, in order, joined by single spaces |
| TextProcessing.NormalizeWhitespaceCanonical | core/text_processing.py:39-40 | The output is single-spaced, and single-spaced text is a fixed point |
| TextProcessing.PaddedWords | core/text_processing.py:54 | The padding spaces do not change the words of the text |
| TextProcessing.PutKeys | core/text_processing.py:49 | Assigning a dict key keeps the keys and their order, and adds a new key at the end |
| TextProcessing.PutLookup | core/text_processing.py:49 | After the assignment the key reads the new value, and every other key reads what it held |
| TextProcessing.BuildSynonymMap | core/text_processing.py:43-50 | The loop builds the map of the row fold: stripped lower-case surface to stripped lower-case canonical |
| TextProcessing.SynonymMapWellFormed | core/text_processing.py:48-49 | The keys are distinct and non-empty |
| TextProcessing.SynonymMapKeysClean | core/text_processing.py:46-48 | The keys are stripped and lower-case |
| TextProcessing.SynonymMapLookup | core/text_processing.py:45-49 | A surface maps to the canonical form of the last row with that surface, and blank surfaces are dropped |
| TextProcessing.ReplaceFromNoMatch | core/text_processing.py:58-59 | Without a whole-word occurrence of the phrase, the substitution changes nothing |
| TextProcessing.ReplaceFromSelf | core/text_processing.py:58-59 | Replacing a phrase with itself changes nothing |
| TextProcessing.ReplaceWordSelf | core/text_processing.py:58-59 | The same, for the substitution over the whole text |
| TextProcessing.ReplacementOrderSorted | core/text_processing.py:56 | Surfaces are replaced longest first, and each key exactly once |
| TextProcessing.ApplyPhraseReplacements | core/text_processing.py:53-60 | The loop replaces every surface in that order on the padded lower-case text, then normalises whitespace |
| TextProcessing.PhraseReplacedWithoutSynonyms | core/text_processing.py:53-60 | Without synonyms, phrase replacement is lower-casing plus whitespace normalisation |
| TextProcessing.Kept | core/text_processing.py:77-82 | Every kept token passes the filter (not a stopword unless a tenor, not a single non-digit character) and comes from the input |
| TextProcessing.KeptAll | core/text_processing.py:77-82 | The filter keeps every token of a list that passes it |
| TextProcessing.NormalizeText | core/text_processing.py:71-83 | The loop returns the normalised text, and empty text gives "" |
| TextProcessing.NormalizedTokens | core/text_processing.py:76-83 | The output's tokens are exactly the kept tokens of the replaced text |
| TextProcessing.NormalizedHasNoNoise | core/text_processing.py:78-81 | No output token is a stopword or a single non-digit character |
| TextProcessing.NormalizedIsSingleSpaced | core/text_processing.py:83 | The output is its tokens joined by single spaces |
| TextProcessing.JoinedKeptTokensFixed | core/text_processing.py:71-83 | Kept tokens joined by spaces normalise to themselves |
| TextProcessing.NormalizedIdempotent | core/text_processing.py:71-83 | Without a synonym map, normalising twice is normalising once |
| Tagging.BuildTagTermMap | core/tagging.py:8-27 | The two loops build the map of the row fold |
| Tagging.AddRowsMembership | core/tagging.py:13-25 | After the fold a code's set holds its earlier terms and the terms of every row that names it |
| Tagging.TagTermMapMembership | core/tagging.py:8-27 | A term belongs to a code's set iff it is the lowered label, lowered code or code-as-words of a taxonomy row with that code, or the cleaned surface or canonical of a synonym row that names the code |
| Tagging.MaxWordCount | core/tagging.py:32-39 | At least 1, bounds the word count of every term, and is 1 or one of those counts |
| Tagging.MaxWordCountUnique | core/tagging.py:32-39 | That contract determines the value |
| Tagging.MaxWordCountAdd | core/tagging.py:39 | One more term raises the maximum to its word count when that is larger |
| Tagging.MatchingTermsAdd | core/tagging.py:33-39 | One more term joins the matching terms exactly when it is non-empty and occurs as a whole word |
| Tagging.CountStep | core/tagging.py:33-39 | One pass of the loop keeps the count and the maximum right |
| Tagging.CountTermMatches | core/tagging.py:30-40 | Returns the number of non-empty terms that occur as whole words, and the most words in one of them (at least 1) |
| Tagging.Confidence | core/tagging.py:65 | Confidence is at most 1, and at least 0.55 once a term matches |
| Tagging.ConfidenceMonotone | core/tagging.py:65 | Confidence never falls as the match count or the longest match grows |
| Tagging.TagOrderTotal | core/tagging.py:68 | The sort key `(-confidence, code)` is a total preorder |
| Tagging.ExtractedPrefix | core/tagging.py:56-66 | One more taxonomy row extends the entries by its own entry, if it gives one |
| Tagging.ExtractRows | core/tagging.py:56-66 | The loop collects one entry per contributing row, in row order |
| Tagging.ExtractTags | core/tagging.py:43-69 | Empty text gives no tags; otherwise the entries sorted by confidence descending, then code |
| Tagging.ExtractedFacts | core/tagging.py:56-66 | Every entry comes from a taxonomy row outside CLIENT_TYPE, with confidence in [0.55, 1] |
| Tagging.ExtractedTagsProperties | core/tagging.py:43-69 | The result is sorted by (-confidence, code); each confidence is in [0.55, 1]; each code is that of a non-CLIENT_TYPE taxonomy row; there are no more tags than rows |
| Features.Min | core/features.py:21 | The minimum is one of the values and no value is below it |
| Features.Max | core/features.py:22 | The maximum is one of the values and no value is above it |
| Features.MinMaxScale | core/features.py:18-25 | One output per input |
| Features.MinMaxScaleBounds | core/features.py:18-25 | Every scaled value lies in [0, 1] |
| Features.MinMaxScaleFlat | core/features.py:23-24 | When all values are within 1e-9 of each other, the output is all 0 (maximum <= 0) or all 1 |
| Features.MinMaxScaleMonotone | core/features.py:25 | Scaling preserves order |
| Features.MinMaxScaleEndpoints | core/features.py:25 | With a spread of at least 1e-9 the minimum scales to 0 and the maximum to 1 |
| Features.Bm25ScoreDocumentsProperties | core/features.py:28-37 | One score per document, each in [0, 1], and all zero when no document or the query has a token |
| Features.DotSymmetric | core/features.py:44 | The dot product does not depend on the order of its arguments |
| Features.CosineSimilarity | core/features.py:40-46 | The result lies in [0, 1], and is 0 when the norm product is at most 1e-12 |
| Features.CosineSimilaritySymmetric | core/features.py:40-46 | Swapping the vectors does not change the similarity |
| Features.CosineSimilarityUnclamped | core/features.py:44-46 | When the norms bound the dot product the clamp never applies: the result is `(cos + 1) / 2` |
| Matching.Bump | core/matching.py:12-26 | `weights[f] += d` keeps the families and their order |
| Matching.ApplyBumps | core/matching.py:11-26 | The adjustments keep the families and their order |
| Matching.ApplyBumpsOfBranch | core/matching.py:11-26 | Each client-type branch (HF_, ASSET_MANAGER_, BANK, none) applies exactly the source's deltas, in source order |
| Matching.BranchDeltasCancel | core/matching.py:11-26 | The deltas of each client-type branch sum to zero |
| Matching.BumpSum | core/matching.py:12-26 | With distinct families, one adjustment raises the total by its delta |
| Matching.ApplyBumpsSum | core/matching.py:11-26 | A list of adjustments raises the total by the sum of its deltas |
| Matching.BranchKeepsTotal | core/matching.py:11-26 | Every branch moves weight between families without changing the total |
| Matching.Clamped | core/matching.py:29-30 | Clamping keeps the families, and leaves every weight at least 0.01 |
| Matching.ClampWeights | core/matching.py:29-30 | The in-place loop raises each weight below 0.01 to 0.01 |
| Matching.Normalized | core/matching.py:31-32 | Normalising keeps the families and their order |
| Matching.NormalizedSumsToOne | core/matching.py:31-32 | Normalising positive weights keeps them positive and makes them sum to 1 |
| Matching.AdjustedFamilyWeights | core/matching.py:8-32 | The weights returned for a client type are the clamped, normalised adjustment of the base weights |
| Matching.AdjustedFamilies | core/matching.py:8-32 | The adjusted weights keep the base families, in order |
| Matching.AdjustedNormalized | core/matching.py:8-32 | Every adjusted weight is strictly positive, and together they sum to 1 |
| Matching.AdjustedWithoutClamp | core/matching.py:29-32 | When no adjusted weight falls below 0.01, each result is the adjusted weight over the unchanged base total |
| Matching.BumpsWithoutClamp | core/matching.py:29-32 | The same for any adjustments whose deltas cancel |
| Matching.ClampedUnchanged | core/matching.py:29-30 | Weights that need no clamp are normalised by the base total alone |
| Matching.TagsToFamilyMap | core/matching.py:35-39 | The loop builds the family map of the rows |
| Matching.FamilyMapStep | core/matching.py:38 | A row adds its code to its family's set and changes no other family |
| Matching.FamilyMapKeys | core/matching.py:35-39 | A family has an entry iff some row has that family |
| Matching.FamilyMapCodes | core/matching.py:35-39 | A code is in a family's set iff some row pairs them |
| Matching.TaxonomyOverlapScore | core/matching.py:42-58 | The loop returns the weighted Jaccard sum over the weighted families, clamped to [0, 1] |
| Matching.FamilyContribution | core/matching.py:49-57 | A family with no tags on either side adds nothing; any other adds its weight times the Jaccard overlap |
| Matching.JaccardBounds | core/matching.py:56 | The Jaccard overlap lies in [0, 1] |
| Matching.JaccardSymmetric | core/matching.py:56 | The overlap does not depend on the order of the sets |
| Matching.JaccardSelf | core/matching.py:56 | A non-empty set overlaps fully with itself |
| Matching.FamilyOverlapSymmetric | core/matching.py:49-57 | A family's contribution does not depend on which side is the query |
| Matching.FamilyOverlapBounds | core/matching.py:49-57 | A family's contribution lies between 0 and its weight |
| Matching.FamilyOverlapSelf | core/matching.py:49-57 | A family compared with itself contributes its weight when it has tags, else nothing |
| Matching.FamilyOverlapCongruent | core/matching.py:49-57 | The contribution depends only on the two sets of its family |
| Matching.OverlapSymmetric | core/matching.py:42-58 | The score does not depend on which side is the query |
| Matching.OverlapBounds | core/matching.py:48-57 | With non-negative weights the unclamped score lies between 0 and the total weight |
| Matching.OverlapOnlyWeightedFamilies | core/matching.py:48-50 | Only the families of the weight map are read |
| Matching.OverlapSelf | core/matching.py:42-58 | A map compared with itself scores the total weight of its non-empty families |
| Matching.OverlapUnclampedWithAdjustedWeights | core/matching.py:58 | With the adjusted weights the clamp never changes the score |
| Matching.ScoreOrderTotal | core/matching.py:72 | The sort key `(-score, token)` is a total preorder |
| Matching.ScoreSharedTokens | core/matching.py:69-71 | The loop gives one entry per shared token, scored by the product of the two counts |
| Matching.TopMatchingTerms | core/matching.py:61-73 | The result is the shared tokens ranked by count product descending, then token, cut to `k` |
| Matching.RankedPrefix | core/matching.py:72-73 | The tokens kept rank before every shared token left out |
| Matching.RankedMembers | core/matching.py:72-73 | Sorting keeps exactly the scored shared tokens |
| Matching.RankedStrict | core/matching.py:72-73 | The ranking of distinct tokens is strict, so the result does not depend on the set's iteration order |
| Matching.StrictWhenDistinct | core/matching.py:72 | Entries with distinct tokens are strictly ordered by the key |
| Matching.DistinctOnce | core/matching.py:69-71 | A scored entry occurs at most once |
| Matching.CombineScoresBounds | core/matching.py:76-81 | Non-negative weights summing to 1 blend scores in [0, 1] to a score in [0, 1] |
| Matching.CombineScoresMonotone | core/matching.py:76-81 | The blend never falls as a component rises |
| Matching.SemanticScoresFromVectors | core/matching.py:84-85 | One similarity in [0, 1] per candidate, in order |
| Profiles.ParseObsDate | core/profiles.py:7-11 | The date is a valid calendar date, and text that does not parse as ISO gives today |
| Profiles.ParseObsDateIso | core/profiles.py:9 | A date written in ISO form is read back |
| Profiles.RecencyBounds | core/profiles.py:14-19 | Recency lies in (0, 1], and is 1 without a positive half-life or for today's and future dates |
| Profiles.RecencyMonotone | core/profiles.py:19 | An older observation never weighs more than a newer one |
| Profiles.RecencyWeightUnparsed | core/profiles.py:7-19 | A date that does not parse counts as today, so its recency is 1 |
| Profiles.RecencyWeightBounds | core/profiles.py:14-19 | `recency_weight` lies in (0, 1] |
| Profiles.ObservationWeightBounds | core/profiles.py:22-24 | An observation weighs between 0 and its type's base weight |
| Profiles.WeighBounds | core/profiles.py:24 | The product of base weight, recency and clamped confidence lies between 0 and the base weight |
| Profiles.ObservationWeightConfidence | core/profiles.py:24 | A negative confidence gives weight 0, and one above 1 weighs as full confidence |
| Profiles.WeighClamps | core/profiles.py:24 | The confidence is clamped to [0, 1] before it scales the weight |
| Profiles.RoundHalfEven | core/profiles.py:34 | `round(x)` is an integer within 1/2 of `x` |
| Profiles.RoundHalfEvenTies | core/profiles.py:34 | A tie rounds to the even integer |
| Profiles.Repeats | core/profiles.py:34 | An observation's text is repeated at least once, and `round(3w)` times (within 1/2 of 3w) once 3w is at least 1.5 |
| Profiles.ContributionShape | core/profiles.py:30-35 | An observation adds nothing iff its normalised text is empty, and otherwise only copies of that text |
| Profiles.ChunksAppend | core/profiles.py:29-35 | The chunks of two lists are the chunks of the first, then those of the second |
| Profiles.ChunksOfOne | core/profiles.py:29-35 | The chunks of one observation are its contribution |
| Profiles.WeightedTextOfNone | core/profiles.py:36 | No observations give the empty profile text |
| Profiles.ChunksFromObservations | core/profiles.py:29-35 | Every chunk is the non-empty normalised text of some observation |
| Profiles.WeightedTextFromObservations | core/profiles.py:27-36 | The loop collects the chunks of the observations, in order, and joins them with spaces |
| Profiles.WeightedTextNeedsNoStrip | core/profiles.py:36 | When normalised texts have no whitespace at either end, the final strip changes nothing |
| Calendar.DaysOld | core/profiles.py:16 | The age is 0 iff the date is today or later, and otherwise the number of days between them |
| Calendar.IsoRoundTrip | core/profiles.py:9 | Parsing a date's ISO form with `%Y-%m-%d` gives the date back |
| Calendar.StrftimeRoundTrip | core/rfq.py:122-133 | Parsing a date printed with a numeric format, with that format, gives the date back |
| Rfq.RegionMapShape | core/rfq.py:71-78 | The alias table lists each key once, and every value is canonical |
| Rfq.NormalizeRegion | core/rfq.py:92-94 | The result is "", a canonical region or one of the run's regions |
| Rfq.NormalizeRegionCeema | core/rfq.py:92-94 | `CEEMA` in any case and padding is `CEEMEA` |
| Rfq.NormalizeRegionAmericas | core/rfq.py:92-94 | `AMERICAS` in any case and padding is `AMERICA` |
| Rfq.NormalizeRegionCanonical | core/rfq.py:92-94 | A normalised region has nothing to strip or upper-case |
| Rfq.NormalizeRegionIdempotent | core/rfq.py:92-94 | Normalising a normalised region changes nothing |
| Rfq.RegionMapFixed | core/rfq.py:71-78 | Every alias target maps to itself |
| Rfq.NormalizeCountry | core/rfq.py:97-98 | The country has nothing left to strip or upper-case |
| Rfq.NormalizeCcyPair | core/rfq.py:101-105 | The pair is six upper-case letters of the input, in order, or "" when it has fewer |
| Rfq.NormalizeCcyPairIdempotent | core/rfq.py:101-105 | A normalised pair is its own normalisation |
| Rfq.NormalizeProductType | core/rfq.py:108-110 | The product type holds only upper-case letters, digits and `_` |
| Rfq.NormalizeProductTypeIdempotent | core/rfq.py:108-110 | A normalised product type is its own normalisation |
| Rfq.NormalizeTenorBucket | core/rfq.py:113-115 | The tenor bucket is the stripped, upper-cased input |
| Rfq.TenorBucketMapIdentity | core/rfq.py:81-89 | The tenor table maps each key to itself |
| Rfq.FirstParse | core/rfq.py:129-134 | The date comes from the first format that accepts the text, and none when no format does |
| Rfq.ParseTradeDate | core/rfq.py:118-134 | Blank input gives None, and any date read is a valid calendar date |
| Rfq.ParseTradeDateUs | core/rfq.py:118-134 | A date printed as `%m/%d/%Y` is read back |
| Rfq.ParseTradeDateIso | core/rfq.py:118-134 | An ISO date is read back, because both month-first formats reject it |
| Rfq.ParseTradeDateDayFirst | core/rfq.py:118-134 | A day-first date whose day exceeds 12 is read back, not mistaken for month-first |
| Rfq.ParseDecimalDigits | core/rfq.py:144 | A string of digits reads as its integer value |
| Rfq.DropM | core/rfq.py:141-142 | One trailing `M` is removed, and nothing else changes |
| Rfq.ParseHitNotionalM | core/rfq.py:137-146 | Blank text gives 0.0 (the readings of whole numbers, with or without `M`, are the lemmas below) |
| Rfq.ParseHitNotionalDigits | core/rfq.py:137-146 | A whole number of millions reads as that number |
| Rfq.ParseHitNotionalDigitsM | core/rfq.py:137-146 | A whole number followed by `M` reads as that number |
| Rfq.InferClientTypeFromSector | core/rfq.py:149-161 | The result is one of the keyword types or the first client type, and a sector mentioning HF is HF_MACRO |
| Rfq.SectorHedgeFundFirst | core/rfq.py:151-154 | A sector naming both a hedge fund and real money counts as a hedge fund |
| Rfq.SectorDefault | core/rfq.py:161 | A sector of digits gets the first client type |
| Rfq.Without | core/rfq.py:169-171 | An element is kept iff it occurs and differs from the removed one |
| Rfq.WithoutAppend | core/rfq.py:169-171 | Filtering distributes over concatenation |
| Rfq.WithoutAbsent | core/rfq.py:169-171 | Nothing is removed when the element does not occur |
| Rfq.RegionFallbacks | core/rfq.py:164-172 | The named region first, then the other regions in order; all regions when the input names none |
| Rfq.RegionFallbacksOrder | core/rfq.py:168-172 | The other regions keep their order behind the named one |
| Rfq.FindPair | core/rfq.py:177 | The match is the leftmost stand-alone run of six upper-case letters at or after the start index |
| Rfq.ProductCandidates | core/rfq.py:181 | Every candidate is a word run of the text, 3 to 20 characters long |
| Rfq.FirstProduct | core/rfq.py:181-184 | The product is the first candidate that is a product type, or "" |
| Rfq.TenorOf | core/rfq.py:186-194 | The tenor follows the precedence 1W, then 1M or 2W, then 3M or 2M, then 6M/9M/12M/1Y, and is "" otherwise |
| Rfq.FirstContained | core/rfq.py:196-200 | The first key that occurs in the text, before which no key occurs |
| Rfq.RegionIn | core/rfq.py:196-200 | The region found in free text is "" or a canonical region |
| Rfq.NormalizeCcyPairOfLetters | core/rfq.py:178 | Six upper-case letters are their own normalised pair |
| Rfq.ExtractedPair | core/rfq.py:177-178 | The pair is the leftmost stand-alone run of six letters, or "" when there is none |
| Rfq.ExtractedOtherFields | core/rfq.py:175-207 | The product is a product type of 3 to 20 characters, so the two-letter types NT and OT are never reported; the tenor and the region are canonical values or "" |
| Service.WeightedSumBounds | core/service.py:26-27 | The weights sum to 1, so components in [0, 1] give a final score in [0, 1] |
| Service.WeightedSumMonotone | core/service.py:26-27 | The final score never falls when a component rises |
| Service.JobAScoreBounds | core/service.py:457 | The client-to-idea weights also give a final score in [0, 1] |
| Service.ChooseFeatureStages | core/service.py:133-149 | Never empty; starts with pair-product-tenor iff all three signals are present; has a tenor stage iff the tenor is present; falls back to the broad stage iff no signal is present |
| Service.NoneIfEmpty | core/service.py:161 | An empty string becomes None, and any other string is kept |
| Service.FallbackPenalty | core/service.py:173-199 | A row found in a fallback region is worth 0.85 of its first-region value and is not strict, so it never displaces that row |
| Service.Merged | core/service.py:187-203 | Each client is listed once, and exactly the clients with a payload are listed |
| Service.MergedKeys | core/service.py:187-203 | Every client offered has an entry, and no other client does |
| Service.MergedBest | core/service.py:202-203 | The payload kept for a client is an offer no other offer beats, and on a tie the earliest |
| Service.MergedMax | core/service.py:202-203 | No offer for a client beats the payload kept for it |
| Service.StageOffers | core/service.py:177-189 | One offer per row the stage's query returns |
| Service.RegionsTried | core/service.py:205-206 | The search never tries more regions than there are to try |
| Service.CandidateClients | core/service.py:151-215 | The candidates merge the offers of every stage of every region tried, in order, with the search metadata |
| Service.MergeRegions | core/service.py:172-206 | The region loop, with its early stop, computes the merge of the regions tried |
| Service.MergeRegion | core/service.py:176-203 | The stage loop of one region computes the merge of its stages |
| Service.MergeStage | core/service.py:187-203 | The row loop of one stage computes the merge of its rows |
| Service.MergeObservationTags | core/service.py:64-69 | The loop computes the merged confidences of all the tag rows, in order |
| Service.MergedTagsMax | core/service.py:64-69 | A code has a merged confidence iff some row has it, and it is the largest of 0.9 times its row confidences, or 0 |
| Service.SortedStrings | core/service.py:235 | The strings in ascending order, each once, and exactly those of the set |
| Service.MatchedTags | core/service.py:226-235 | The matched tags are the codes shared within a family, ascending and without repeats |
| Service.FinalFirstTotal | core/service.py:415 | The sort by final score descending is a total preorder |
| Service.RankResultsProperties | core/service.py:415-416 | At most `top_n` rows by final score descending, taken from the input; no row left out scores above a row kept; ties keep their input order |
| Service.LexicalScores | core/service.py:367 | One lexical score per document, each in [0, 1] |
| Service.SemanticScores | core/service.py:371-376 | One semantic score per document, each in [0, 1] |
| Service.PmSemanticScores | core/service.py:287-290 | One semantic score per PM document, each in [0, 1] |
| Service.Scaled | core/service.py:376 | The scaled structured scores lie in [0, 1], one per candidate |
| Service.TaxonomyScore | core/service.py:383-385 | The taxonomy score lies in [0, 1] |
| Service.ClientMatches | core/service.py:381-413 | One result row per profile |
| Service.RowsOf | core/service.py:382-413 | One result row per profile |
| Service.ClientMatchesBounds | core/service.py:381-413 | Every component and final score of an idea-to-client run lies in [0, 1] |
| Service.IdeaMatches | core/service.py:451-476 | One result row per idea |
| Service.IdeaRowsOf | core/service.py:451-476 | One result row per idea |
| Service.IdeaMatchesBounds | core/service.py:457 | Every final score of a client-to-idea run lies in [0, 1] |
| Service.ScoreCandidates | core/service.py:381-416 | The scoring loop, then the sort and cut, give the ranked result rows |
| Service.ScoreRows | core/service.py:382-413 | The scoring loop gives one row per profile, in order |
| Service.ScoreCandidate | core/service.py:383-413 | One pass builds the row of one candidate client |
| Service.FeatureSums | core/service.py:296-310 | The feature loop sums the trade counts and recency scores of exactly the features that pass the filter |
| Service.LooserSumsMore | core/service.py:298-310 | A filter with fewer conditions never loses a feature, so its sums are at least as large |
| Service.PmBaseBounds | core/service.py:319 | The PM base score of components in [0, 1] lies in [0, 1] |
| Service.AlphaBounds | core/service.py:320 | Alpha lies in [0, 0.7], is 0 without trades, is 0.7 from 70 trades on, and never falls as trades grow |
| Service.BlendShift | core/service.py:321 | The blend is the client's score shifted by alpha times the difference |
| Service.BlendBetween | core/service.py:321 | The PM score lies between the PM base score and the client's score, and is the client's score when alpha is 0 |
| Service.BlendFloor | core/service.py:320-321 | With alpha at most 0.7 the PM score is at least 30% of the client's score |
| Service.PmFilterFor | core/service.py:265-270 | The filter uses the same target region and country as the candidate search |
| Service.PmRaws | core/service.py:292-312 | One structured raw score per PM |
| Service.PmRows | core/service.py:316-331 | One drill-down row per PM |
| Service.PmResults | core/service.py:280-331 | One drill-down row per PM |
| Service.PmFirstTotal | core/service.py:332 | The sort by PM score descending is a total preorder |
| Service.SumsNonNegative | core/service.py:296-310 | Non-negative feature counts give non-negative sums |
| Service.PmResultsSound | core/service.py:316-331 | Every PM row has alpha in [0, 0.7] and a score in [0, 1], at least 30% of the client's score, and exactly that score without trades |
| Service.PmRankingProperties | core/service.py:315-333 | `min(cap, #PMs)` rows by PM score descending, taken from the PMs' rows; no PM left out scores above one kept; each row sound as above |
| Service.ByClientKeys | core/service.py:271-335 | A client has a drill-down iff one of the rows is that client's |
| Service.ByClientLast | core/service.py:271-335 | A client's drill-down is the value of its last row |
| Service.RankingsLookup | core/service.py:273-335 | A client has a drill-down iff it has a row, and it is the ranking of its PMs against its last row's final score |
| Service.PmMeta | core/service.py:294-313 | The loop computes each PM's trade and recency sums, keyed by PM id |
| Service.PmResultRows | core/service.py:316-331 | The result loop gives the rows of the PMs, in order |
| Service.RankClientPms | core/service.py:275-333 | The body of the client loop computes one client's drill-down |
| Service.RankPmsForClients | core/service.py:257-335 | The client loop computes the drill-downs of the first ten client rows |
| Service.IdeaDocs | core/service.py:438 | One normalised document per idea, in order |
| Service.AttachedDrilldowns | core/service.py:419-420 | One drill-down per result row |
| Service.DrilldownsFirstTen | core/service.py:417-420 | Only the first ten result rows are drilled into: a row with a non-empty drill-down shares its client with one of them |
| Service.ClientCategorizer.constructor | core/service.py:31-36 | The service starts with the repository's taxonomy and synonyms, and the synonym map built from them |
| Service.ClientCategorizer.RefreshResources | core/service.py:38-41 | Both row lists are reloaded and the synonym map rebuilt from the new synonyms |
| Service.ClientCategorizer.NormalizeText | core/service.py:43-44 | Text is normalised with the service's synonym map |
| Service.ClientCategorizer.InferTags | core/service.py:46-52 | The rule tagger runs over the service's taxonomy and synonyms |
| Service.ClientCategorizer.MatchIdeasForClient | core/service.py:426-482 | An unknown client is an error; otherwise every idea scored against the client's profile, sorted by final score and cut to `top_n` |
| Service.ClientCategorizer.MatchClientsForIdea | core/service.py:337-424 | The candidate search on the normalised idea, the candidates scored and ranked, and, when asked for, each row's PM drill-down |
| Service.IdeaRows | core/service.py:451-476 | The scoring loop gives one row per idea, in order |
| Sorting.SortBySorted | core/service.py:415 | Python's stable sort orders its input under a total preorder |
| Sorting.SortByStable | core/service.py:415 | Elements that tie keep their input order |
| Sorting.TopByProperties | core/service.py:415-416 | `sorted(...)[:k]` is sorted, drawn from the input, outranks everything it leaves out, and keeps ties in input order |
| IngestRfq.DictOfLastWins | scripts/ingest_rfq_csv.py:59 | The row dict has the keys of the pairs, and each reads its last pair's value |
| IngestRfq.DictOfKeys | scripts/ingest_rfq_csv.py:59 | A key is in the dict only when some pair has it |
| IngestRfq.GetFieldFirst | scripts/ingest_rfq_csv.py:61-66 | The getter returns the value of the first name whose cell is not blank, and "" iff every cell is blank |
| IngestRfq.MissingColumnsOf | scripts/ingest_rfq_csv.py:75 | The missing columns are the required ones, in order, whose normalised name is not present |
| IngestRfq.EnsureHeadersIff | scripts/ingest_rfq_csv.py:71-77 | No header is refused; otherwise the header is accepted iff every required column is present up to case and padding, and the error lists the missing ones |
| IngestRfq.DecayBounds | scripts/ingest_rfq_csv.py:80-81 | A decay weight lies in (0, 1], and is 1 for a trade dated today or later |
| IngestRfq.DecayMonotone | scripts/ingest_rfq_csv.py:80-81 | An older trade weighs no more than a newer one |
| IngestRfq.FeatureKeysShape | scripts/ingest_rfq_csv.py:84-100 | One bucket per kind whose components are all present, in production order, carrying exactly those components |
| IngestRfq.FeatureKeysDistinct | scripts/ingest_rfq_csv.py:84-100 | The buckets of one row are distinct |
| IngestRfq.AggOfTotals | scripts/ingest_rfq_csv.py:197-209 | A bucket counts its trades, sums their notionals, and has a recency score between 0 and its count |
| IngestRfq.AggOfLastDate | scripts/ingest_rfq_csv.py:203-205 | The last trade date is the greatest ISO date among the bucket's trades, and "" only without trades |
| IngestRfq.Put | scripts/ingest_rfq_csv.py:200 | `d[k] = v` appends a new key and keeps an existing key's place |
| IngestRfq.PutValid | scripts/ingest_rfq_csv.py:200 | Setting a key keeps the keys distinct and in step with the map |
| IngestRfq.BumpAllAt | scripts/ingest_rfq_csv.py:186-209 | A trade added to distinct buckets bumps each once, creates the missing ones, and leaves the others alone |
| IngestRfq.BumpAllOrder | scripts/ingest_rfq_csv.py:186-209 | Existing buckets keep their place, and new ones are appended |
| IngestRfq.BumpBuckets | scripts/ingest_rfq_csv.py:186-209 | The bucket loop adds the trade to each key, in order |
| IngestRfq.BumpBothAt | scripts/ingest_rfq_csv.py:186-249 | The client and PM loops bump every key of either list once, and leave the others alone |
| IngestRfq.EntityKeysDistinct | scripts/ingest_rfq_csv.py:186-196 | A row's buckets for one entity are distinct |
| IngestRfq.ParseRow | scripts/ingest_rfq_csv.py:155-164 | Every trade date a row yields is a valid calendar date |
| IngestRfq.IngestRow | scripts/ingest_rfq_csv.py:151-249 | The loop body, with its bucket loops, computes one step of the run |
| IngestRfq.ResolveClientConsistent | scripts/ingest_rfq_csv.py:171-181 | A resolved client is cached under its name, and the run stays consistent |
| IngestRfq.ResolveClientCached | scripts/ingest_rfq_csv.py:171-181 | A name already resolved resolves to the same client and changes nothing |
| IngestRfq.ResolvePmConsistent | scripts/ingest_rfq_csv.py:211-224 | A resolved PM is cached under its client and lower-cased name, and the run stays consistent |
| IngestRfq.ResolvePmCached | scripts/ingest_rfq_csv.py:213-222 | PM names that differ only in case resolve to the same PM and change nothing |
| IngestRfq.StepConsistent | scripts/ingest_rfq_csv.py:151-249 | One row keeps the run consistent and counts as read, and as valid or skipped |
| IngestRfq.IngestedConsistent | scripts/ingest_rfq_csv.py:151-249 | Every row is read and counted as valid or skipped by the skip rule, and the run stays consistent |
| IngestRfq.TouchedDistinct | scripts/ingest_rfq_csv.py:186-249 | A row's client and PM buckets are distinct |
| IngestRfq.StepAt | scripts/ingest_rfq_csv.py:186-249 | One row adds its trade once to each bucket it touches and leaves every other bucket alone |
| IngestRfq.IngestedAt | scripts/ingest_rfq_csv.py:186-249 | After a run, a bucket is exactly the aggregate of the trades the rows added to it |
| IngestRfq.FileBucketsOwned | scripts/ingest_rfq_csv.py:252-273 | Filing the buckets one by one leaves each owner with exactly the buckets it owns, in key order |
| IngestRfq.OwnedMembers | scripts/ingest_rfq_csv.py:252-273 | An owner's buckets are those of its keys, one per key, with the key's aggregate |
| IngestRfq.ProfileBucketsOwn | scripts/ingest_rfq_csv.py:252-273 | As corrected, an entity's profile buckets are exactly those of its own keys |
| IngestRfq.ProfileBucketsAsWrittenMixes | scripts/ingest_rfq_csv.py:273 | As written, a client's profile also reads the buckets of the PM with the same numeric id |
| IngestRfq.ProfileBucketsShared | scripts/ingest_rfq_csv.py:273 | Client 1 and PM 1 trading the same pair: as written, the client's profile reads both buckets |
| IngestRfq.RecencyFirstTotal | scripts/ingest_rfq_csv.py:105 | The sort by (recency, trade count) descending is a total preorder |
| IngestRfq.TopBucketsProperties | scripts/ingest_rfq_csv.py:105-107 | At most 20 buckets, taken from the list, none less recent than one left out, and exactly 20 when the list is longer |
| IngestRfq.ScoreRepeat | scripts/ingest_rfq_csv.py:117 | A phrase is repeated between 1 and 4 times, its recency score rounded |
| IngestRfq.BucketParts | scripts/ingest_rfq_csv.py:108-118 | A bucket adds its phrase one to four times, and nothing when it has no phrase |
| IngestRfq.PartsCount | scripts/ingest_rfq_csv.py:107-118 | At most four parts per bucket, and none iff no bucket has a phrase |
| IngestRfq.PartsFrom | scripts/ingest_rfq_csv.py:107-118 | Every part is the phrase of a bucket of the list |
| IngestRfq.ProfileTextShape | scripts/ingest_rfq_csv.py:103-119 | A profile text starts with the entity's name, and is the bare name iff no top bucket has a phrase |
| IngestRfq.CollectParts | scripts/ingest_rfq_csv.py:107-118 | The loop appends each bucket's parts, in order |
| IngestRfq.BuildProfileText | scripts/ingest_rfq_csv.py:103-119 | The profile text is the name, then the top buckets' parts, joined |
| IngestRfq.FeatureRows | scripts/ingest_rfq_csv.py:251-272 | One feature row per bucket |
| IngestRfq.CollectBuckets | scripts/ingest_rfq_csv.py:252-273 | The loop collects the feature rows and files each bucket under its entity type and id. This is the corrected filing of the finding below; the program files by bare id |
| IngestRfq.FileBucketsNext | scripts/ingest_rfq_csv.py:252-273 | Filing one more key extends the filing of the keys before it |
| IngestRfq.ClientEntries | scripts/ingest_rfq_csv.py:276 | One entry per cached client |
| IngestRfq.PmEntries | scripts/ingest_rfq_csv.py:279 | One entry per cached PM |
| IngestRfq.ProfileRows | scripts/ingest_rfq_csv.py:276-281 | One profile row per entity, in order, with the entity's type and id |
| IngestRfq.ProfileRowsNamed | scripts/ingest_rfq_csv.py:106-119 | Every profile text starts with its entity's name |
| IngestRfq.BuildProfiles | scripts/ingest_rfq_csv.py:276-281 | The loops over the cached clients and PMs build every profile text, each from its own entity's buckets (the corrected filing) |
| IngestRfq.CreatedClients | scripts/ingest_rfq_csv.py:177-179 | One created-client row per new client |
| IngestRfq.IngestRows | scripts/ingest_rfq_csv.py:151-249 | The row loop computes the run over the file's rows |
| IngestRfq.Finish | scripts/ingest_rfq_csv.py:251-309 | The writes after the loop: feature rows, profile texts and the counters of the report, with the profiles built on the corrected filing |
| IngestRfq.IngestRfqCsv | scripts/ingest_rfq_csv.py:122-309 | A file with no header or a missing required column is refused; otherwise every row runs through the loop, and the buckets and the profiles of the corrected filing are written |
| IngestPm.ParsePmRow | scripts/ingest_pm_csv.py:76-134 | Every date read is a valid calendar date, and the preference text has nothing to strip |
| IngestPm.SemanticText | scripts/ingest_pm_csv.py:115-116 | The preference text has nothing left to strip |
| IngestPm.SemanticTextShape | scripts/ingest_pm_csv.py:115-116 | The preference text is blank iff every value is; otherwise it is the join of the non-blank ones, which the final strip leaves alone |
| IngestPm.ResolvePmCounted | scripts/ingest_pm_csv.py:96-104 | Resolving a PM counts the row as valid and once as created or updated |
| IngestPm.NoteStepNotes | scripts/ingest_pm_csv.py:117-127 | A note is added iff the preference is not blank and the PM lacks it; the added note is new, so notes stay distinct |
| IngestPm.NoteStepSnippets | scripts/ingest_pm_csv.py:127 | Each snippet list stays non-empty, with non-blank stripped texts |
| IngestPm.BucketStepValid | scripts/ingest_pm_csv.py:149-172 | Every bucket stays a PM's, with a region and no notional |
| IngestPm.PmKeys | scripts/ingest_pm_csv.py:150-152 | A row without a region touches no bucket |
| IngestPm.StepConsistent | scripts/ingest_pm_csv.py:74-172 | One row keeps the run consistent, counts as read, and as valid or skipped by the skip rules |
| IngestPm.ValidStepConsistent | scripts/ingest_pm_csv.py:104-172 | The note, snippet and bucket updates keep the run consistent and the counters as they are |
| IngestPm.IngestedConsistent | scripts/ingest_pm_csv.py:74-172 | Every row is read, and counted as skipped iff it lacks a name or its client does not resolve |
| IngestPm.StepAt | scripts/ingest_pm_csv.py:149-172 | A row adds its trade, without notional, once to each bucket it touches, and leaves the others alone |
| IngestPm.ProfileTextShape | scripts/ingest_pm_csv.py:201 | A PM with snippets gets the join of its first 50, and `PM <id>` only without snippets |
| IngestPm.Profiles | scripts/ingest_pm_csv.py:200-202 | One profile per PM with snippets |
| IngestPm.BuildProfiles | scripts/ingest_pm_csv.py:200-202 | The loop builds the profile text of each PM |
| IngestPm.CollectFeatures | scripts/ingest_pm_csv.py:177-198 | The loop builds one feature row per bucket |
| IngestPm.IngestRow | scripts/ingest_pm_csv.py:74-172 | The loop body, with its bucket loop, computes one step of the run |
| IngestPm.IngestRows | scripts/ingest_pm_csv.py:74-172 | The row loop computes the run over the sheet's rows |
| IngestPm.SheetConsistent | scripts/ingest_pm_csv.py:74-172 | A run from empty counters stays consistent over a whole sheet |
| IngestPm.Finish | scripts/ingest_pm_csv.py:174-202 | The writes after the loop: feature rows and profile texts |
| IngestPm.IngestPmCsv | scripts/ingest_pm_csv.py:51-236 | A sheet with no header is refused; otherwise the report of the run over all of its rows |
| IngestTrade.LiteralNames | scripts/ingest_trade_csv.py:41-47 | The names a literal gives are never empty |
| IngestTrade.Filled | scripts/ingest_trade_csv.py:52 | Only non-empty pieces of the input are kept |
| IngestTrade.FallbackNames | scripts/ingest_trade_csv.py:49-52 | The fallback yields no empty name |
| IngestTrade.ParsedNames | scripts/ingest_trade_csv.py:39-52 | The parsed names are never empty |
| IngestTrade.LowerKeysHas | scripts/ingest_trade_csv.py:54-62 | Every name's lower-cased form is among the seen keys |
| IngestTrade.FirstSpellingsKeys | scripts/ingest_trade_csv.py:54-62 | De-duplication keeps every name up to case, and no two kept names are equal up to case |
| IngestTrade.FirstSpellingsKept | scripts/ingest_trade_csv.py:54-62 | Kept names are input names, and a name not preceded by an equal one up to case is kept |
| IngestTrade.FirstSpellingsPrefix | scripts/ingest_trade_csv.py:54-62 | The names kept from a prefix are a prefix of those kept from the list |
| IngestTrade.FirstSpellingsDistinct | scripts/ingest_trade_csv.py:54-62 | Names already distinct up to case are kept as they are |
| IngestTrade.ClientList | scripts/ingest_trade_csv.py:34-62 | A blank cell names no client; every name is non-empty, and no two are equal up to case |
| IngestTrade.Dedupe | scripts/ingest_trade_csv.py:54-62 | The loop over a set of seen lower-cased names keeps the first spelling of each name |
| IngestTrade.ParseClientList | scripts/ingest_trade_csv.py:34-62 | The procedure returns the client list of the cell |
| IngestTrade.ClientListOfList | scripts/ingest_trade_csv.py:41-43 | A literal list of stripped, non-blank names distinct up to case gives exactly those names |
| IngestTrade.ClientListOfCommaText | scripts/ingest_trade_csv.py:49-52 | Unparseable text of plain names separated by ", " gives exactly those names |
| IngestTrade.ClientListOfEmptyList | scripts/ingest_trade_csv.py:34-52 | An empty list names no client, whichever path reads it |
| IngestTrade.FallbackOfCommaList | scripts/ingest_trade_csv.py:49-52 | The fallback reads a ", "-separated list of plain names back as the names |
| IngestTrade.SplitCommaList | scripts/ingest_trade_csv.py:51 | Such a list splits on its commas into the names, with the spaces before them |
| IngestTrade.IdeaTextLines | scripts/ingest_trade_csv.py:65-70 | The idea text is the trade line alone when the feedback is blank, else the trade line, an empty line and the feedback line |
| IngestTrade.ObservationTextSplits | scripts/ingest_trade_csv.py:73-79 | The observation text splits on its line breaks back into its lines |
| IngestTrade.ObservationTextLines | scripts/ingest_trade_csv.py:73-79 | The text starts with the trade, has a feedback line iff the feedback is not blank, and an author line, last, iff the author is not blank |
| IngestTrade.IngestClients | scripts/ingest_trade_csv.py:136-164 | The loop over a row's clients computes their steps, in order |
| IngestTrade.IngestRow | scripts/ingest_trade_csv.py:109-164 | A blank trade does nothing; otherwise the idea, then the client loop |
| IngestTrade.ClientStepConsistent | scripts/ingest_trade_csv.py:136-164 | A client step keeps the run consistent and adds an observation iff the client lacked it |
| IngestTrade.StepConsistent | scripts/ingest_trade_csv.py:109-164 | A row keeps the run consistent and counts itself iff its trade is not blank |
| IngestTrade.IdeaStepConsistent | scripts/ingest_trade_csv.py:119-130 | Counting a row and creating or updating its idea keeps the run consistent |
| IngestTrade.IngestedConsistent | scripts/ingest_trade_csv.py:109-164 | The run stays consistent and processes exactly the rows with a non-blank trade |
| IngestTrade.ResolveExtends | scripts/ingest_trade_csv.py:137-145 | After resolving, the name is found, and no client, idea or observation is lost |
| IngestTrade.ClientStepRecords | scripts/ingest_trade_csv.py:136-164 | After a client step the name is found, its client has the row's observation, and nothing is lost |
| IngestTrade.IngestedRecords | scripts/ingest_trade_csv.py:109-164 | After the whole sheet, every row's title, clients and observations are on record |
| IngestTrade.ReingestCreatesNothing | scripts/ingest_trade_csv.py:109-164 | A second run over the same sheet processes the same rows and creates no idea, client or observation |
| IngestTrade.IngestRows | scripts/ingest_trade_csv.py:109-164 | The row loop computes the run over the sheet's rows |
| IngestTrade.IngestTradeCsv | scripts/ingest_trade_csv.py:82-171 | An unknown client type is refused first, a sheet without a header next; otherwise every row is read and the counters are those of the consistent run |

## Left out

- `math.exp`, `date.today()`, BM25 scoring (`rank_bm25`) and the embedding model are not computed.
  They are parameters. Only the properties the code relies on are stated about `exp`: it is
  positive, at most 1 and increasing on the non-positive reals.
- Floating point: reals stand for Python floats, so rounding error is not modelled.
- Tagging.Confidence: the confidence is not rounded to 4 decimals. The stored scores (6 and 8
  decimals) are not rounded either.
- The SQLite repository is not modelled as code. Its reads are lookups given as parameters or
  snapshot values. Its writes are modelled as the values the loaders hand to it.
- `resolve_client_by_name_or_alias`, `get_pm_by_client_name`, `upsert_pm_metadata`,
  `clear_rfq_features`, `create_match_run` and `add_match_results` are modelled only as
  the lookups and rows the ranking code uses.
- `auto_tag_observation`, `auto_tag_idea` and the tag writes of
  `refresh_client_tags_from_observations` are left out. The `Service.MergeObservationTags` row
  covers only the merge of the tag rows, and not storing the merged tags.
- `_idea_tags`, `build_client_profile`, `_build_profiles_for_client_ids` and `_pm_profile_text`
  are repository reads. They are parameters of the ranking functions.
- The explanation text of a result row is not modelled. Its matched tags and top terms are.
- Logging is not modelled.
- `str.lower`, `str.upper`, `str.strip` and `str.split` are modelled on ASCII. Unicode case
  mapping and Unicode whitespace are left out.
- `ast.literal_eval` is a parameter of `IngestTrade.ClientList`. Its result is a literal
  string, a list or a failure.
- `float()` is modelled only on plain decimals: sign, digits and an optional fraction.
  Exponents, `inf` and `nan` read as failures.
- CSV reading is not modelled. A sheet is its header and its rows of (column, cell) pairs, and a
  missing cell reads as "". A row with more cells than the header is not modelled: `csv.DictReader`
  files the extra cells under the key `None`, `_normalize_key(None)` then fails
  (scripts/ingest_rfq_csv.py:54-59, scripts/ingest_pm_csv.py:30-35,
  scripts/ingest_trade_csv.py:21-26), and the whole load aborts; the RFQ loader also marks its
  run FAILED. The model has no such error path.
- The constants `REGIONS`, `CLIENT_TYPES`, `SIGNAL_WEIGHTS`, `BASE_FAMILY_WEIGHTS` and
  `MATCH_WEIGHTS` live outside the core. They are parameters, and each lemma requires only what
  the code assumes of them, such as weights that sum to 1.
- The trade loader's observation date (today) and source confidence (0.8) are not stored by the model.
- The PM loader's test expects a preference note from a "PreferenceText" column. The code reads
  only Style, Example trade and Tags, and the model follows the code.
- IngestRfq.IngestRfqCsv: profiles are built from the corrected filing of the finding below,
  where each bucket belongs to its entity type and id. When a client and a PM share an id, the
  program's profile texts also hold the other entity's buckets, and the model does not compute
  those texts. IngestRfq.ProfileBucketsAsWritten models the program's filing on its own.
- IngestRfq.CollectBuckets, IngestRfq.BuildProfiles, IngestRfq.Finish: the same deviation; they
  file and read buckets by entity type and id, not by the bare id of line 273.
- TextProcessing.ApplyPhraseReplacements: the canonical form is spliced in literally. The program
  passes it to `re.sub` as a template, so a backslash in a canonical form is an escape: `\\` gives
  one backslash, `\1` or `\g<0>` refer to groups, and an unknown escape such as `\d` raises
  `re.error` and aborts normalisation. The model does not capture these cases;
  TextProcessing.ReplaceWord and TextProcessing.ReplaceFrom agree with the program only on
  canonical forms without a backslash.
- IngestRfq.ResolveClient, IngestTrade.FindClient: a client created in this run is found again only
  under the exact name it was created with, because `existingClient` is a snapshot taken before the
  run. If the repository's `resolve_client_by_name_or_alias` ignores case or matches aliases, a second
  spelling of that client creates a second client in the model, but not in the program.
- IngestPm.IngestPmCsv: PM lookups assume the repository finds a PM that this run created, under
  its client and name.
- The `FastTextEmbedder` class (`core/features.py:49-130`) trains and loads a model file. Its
  vectors are parameters here.
- The web app, the database schema, `core/logging_utils.py` and the scripts other than the three
  loaders are not part of this model.

## Findings

| source | as written | input that shows it | evidently intended | confidence | as-written member | corrected member |
|---|---|---|---|---|---|---|
| scripts/ingest_rfq_csv.py:273 | `profile_buckets` is keyed by the bare entity id, so a client and a PM with the same numeric id share one bucket list | Client 1 and PM 1 both trade EURUSD: the profile text of client 1 reads the PM's bucket as well as its own | Key the lists by entity type and id, so each profile reads only its own buckets | not executed | IngestRfq.ProfileBucketsShared | IngestRfq.ProfileBucketsOwn |
