# Netflix history recommendations — a Dafny model

The application takes a user's exported Netflix viewing history, a CSV file. It cleans each title and looks the titles up in a metadata provider. The resulting `movie_metadata` records (genre, cast, director, duration) go into a store.

From those records the application builds a viewing profile:
- genre, actor and director counts;
- the mean running time;
- the number of records.

It then ranks the rest of the catalogue against that profile. Each recommendation carries a reason string.

Around this engine sit:
- the CSV front end: file checks and preview on the upload page, and the title-column detection and title extraction of lib/csv-parser.ts;
- two catalogue seeding scripts: one for the TMDB export, one for a catalogue of Indian films;
- two scoring scripts, each with its own scorer;
- the display helpers of the recommendation cards and of the preferences panel.

This project models all of that as Dafny code and proves what each part promises.

## Modules

Shared modules:
- `Base`: `Option`, `Fetch` (a store query that either returns rows or fails), `Min`/`Max`.
- `JsString`: the JavaScript string built-ins the program uses, with ECMAScript behaviour:
  - `trim`;
  - `split` on one character, which keeps empty pieces;
  - `join`;
  - ASCII `toLowerCase`;
  - the first `/(\d+)/` match;
  - `parseInt(s, 10)`, which returns `None` for NaN;
  - decimal rendering of an integer.
- `Seqs` and `Dicts`: sequence helpers, and a plain JavaScript object used as a dictionary (keys in insertion order plus a map).
- `Catalog`: the movie record and how its comma-separated fields become tokens.

Source files and the modules that model them:

| source file | module |
|---|---|
| lib/recommendation.ts | `Aggregation`, `FeatureVectors`, `Similarity`, `Diversity`, `Ranking`, `Reasons`, `Recommend` |
| lib/utils.ts | `TitleCleaner` |
| app/page.tsx | `Enrichment`; `MetadataStore` is a class whose `rows` field is the store |
| lib/csv-parser.ts | `CsvTitles` |
| scripts/tmdb-csv-parser.js | `CsvLine`, plus the credit variant in `Tmdb` |
| lib/tmdb-processor.ts | `Tmdb` |
| scripts/populate-indian-movies.js | `SeedCatalog` |
| scripts/test-improved-similarity.js | `ImprovedSimilarity` |
| scripts/test-recommendations.js | `FlatScorer`; what it shares with the other script is in `ScriptCommon` |
| components/movie-recommendations.tsx | `RecommendationView` |
| components/UserPreferences.tsx | `PreferencesView` |

Code that works step by step is a `method` with loop invariants. Examples:
- the aggregation loop;
- the sub-score accumulators;
- the diversity pass;
- the CSV line reader;
- the batch loops of the seeding scripts and of the upload page.

Each such method is proved equal to a specification function. The lemmas state the source's promises about that function. The store that `processTitle` reads and writes is the `rows` field of the `MetadataStore` class, which `ProcessTitle` updates in place.

Scores are exact `real`s. Store queries, the metadata provider, JSON parsing and insert outcomes become parameters.

## Model

| member | source | states |
|---|---|---|
| Catalog.ListTokens | lib/recommendation.ts:37-59 | tokens of a present, non-'N/A' field are its trimmed comma pieces minus 'N/A' (empty pieces kept); never 'N/A', never padded with spaces |
| Catalog.DurationMinutes | lib/recommendation.ts:61-67 | a duration is read exactly when the field is not 'N/A' and has a digit |
| Catalog.NothingMatched | components/movie-recommendations.tsx:127-151 | an empty or 'N/A' field matches no profile key |
| Aggregation.AggregatePreferences | lib/recommendation.ts:28-77 | the loop over the records computes the profile `Aggregate` |
| Aggregation.CountTokens | lib/recommendation.ts:38-42 | the `forEach` increment loop computes the tally of the tokens |
| Aggregation.CountField | lib/recommendation.ts:35-59 | one record's tokens extend the counts of the records before it |
| Aggregation.AggregateCounts | lib/recommendation.ts:28-77 | each count map has exactly the distinct tokens of the records, in first-seen order, each counted by its occurrences; no 'N/A' key; totalMovies is the number of records; averageDuration is the mean of the durations read |
| Aggregation.TallyFromEmpty | lib/recommendation.ts:40 | incrementing a count that defaults to 0 gives each distinct token its number of occurrences |
| Aggregation.TallyValid | lib/recommendation.ts:40 | every tallied count is at least 1 |
| Aggregation.AllTokensHaveNoNA | lib/recommendation.ts:39 | 'N/A' is never counted |
| Aggregation.MeanNonNegative | lib/recommendation.ts:74 | the mean running time is never negative, and 0 with no durations |
| Aggregation.AggregateWellFormed | lib/recommendation.ts:28-77 | the aggregated profile has positive counts under distinct keys and a non-negative mean |
| Aggregation.CountsStep | lib/recommendation.ts:35-59 | the per-record step of the count loop |
| Aggregation.DurationsStep | lib/recommendation.ts:61-67 | a record with a duration adds it to the sum and to the count; one without changes neither |
| FeatureVectors.CountTotal | lib/recommendation.ts:95 | the summed counts are at least 1 exactly when the map is not empty |
| FeatureVectors.NormalizeWeights | lib/recommendation.ts:95-110 | the weight map has the same keys, each weight is count/total, and a non-empty dimension sums to 1 |
| FeatureVectors.ProfileVectorWeights | lib/recommendation.ts:88-118 | the profile vector keeps exactly the count keys with weight count/total, sums to 1 per non-empty dimension, and carries the mean duration |
| FeatureVectors.EqualWeightsFacts | lib/recommendation.ts:128-132 | the equal-weight map has the distinct tokens, each with the same weight |
| FeatureVectors.BillingWeightsFacts | lib/recommendation.ts:137-142 | an actor's weight is the billing weight of that actor's last position, because later writes overwrite earlier ones |
| FeatureVectors.ShareVectorWeights | lib/recommendation.ts:127-133 | each listed genre or director gets 1/N, N counting repeats |
| FeatureVectors.ShareVectorSum | lib/recommendation.ts:127-133 | the 1/N weights sum to 1 exactly when no token repeats |
| FeatureVectors.EqualSharesSum | lib/recommendation.ts:129-132 | 1/N over N tokens sums to 1 exactly when the tokens are distinct |
| FeatureVectors.MovieVectorWeights | lib/recommendation.ts:121-164 | actor keys are the distinct cast tokens with billing weights; the duration is the first digit run or 0 |
| FeatureVectors.BillingWeightValues | lib/recommendation.ts:140 | positions 0, 1 and 2 weigh 1.0, 0.8 and 0.6; later positions weigh 0.3 |
| Similarity.MatchingFacts | lib/recommendation.ts:209 | every matching key is a key of both maps, and every profile key the movie also has is matching |
| Similarity.MatchingNonEmpty | lib/recommendation.ts:211-213 | some key matches exactly when the two maps share a key |
| Similarity.SumPositive | lib/recommendation.ts:219-225 | the total profile weight is positive when there is a key |
| Similarity.SumInBounds | lib/recommendation.ts:219-225 | the matched weight lies between 0 and the total, and is positive when some key matches |
| Similarity.MatchRatioBounds | lib/recommendation.ts:230 | matched/total weight lies in (0, 1] when some key matches |
| Similarity.OverlapBonusBounds | lib/recommendation.ts:228 | the overlap bonus lies in [0, cap], and is positive when some key matches |
| Similarity.GenreScoreBounds | lib/recommendation.ts:200-231 | 0 for an empty map or no shared key; otherwise ratio plus a bonus in (0, 0.3]; always in [0, 1.3] |
| Similarity.ActorScoreBounds | lib/recommendation.ts:234-266 | 0 for an empty map or no shared key; otherwise ratio plus 0.2 (for two or more matches) plus a bonus of at most 0.2; always in [0, 1.4] |
| Similarity.DirectorScoreBounds | lib/recommendation.ts:269-300 | 0 for an empty map or no shared key; otherwise ratio plus exactly 0.3; always in [0, 1.3] |
| Similarity.DurationScoreProperties | lib/recommendation.ts:325-337 | 0 when either duration is 0; symmetric; in [0, 1]; never higher for a larger gap; 1 within 15 minutes; 0 beyond 90 |
| Similarity.ScoreBounds | lib/recommendation.ts:167-197 | the weighted score lies in [0, 1.305] |
| Similarity.ScoreCanExceedOne | lib/recommendation.ts:196 | a profile and a candidate reach 1.305: the score is not clamped to 1 |
| Similarity.ExampleSingleKey | lib/recommendation.ts:230 | a one-key profile against itself scores 1.3 for genre and for director |
| Similarity.ExampleActors | lib/recommendation.ts:265 | two matched actors score 1.4 |
| Similarity.WeightTotals | lib/recommendation.ts:216-225 | the `forEach` loop accumulates the total and matched profile weight |
| Similarity.GenreSimilarity | lib/recommendation.ts:200-231 | the function computes the genre sub-score |
| Similarity.ActorSimilarity | lib/recommendation.ts:234-266 | the function computes the actor sub-score |
| Similarity.DirectorSimilarity | lib/recommendation.ts:269-300 | the function computes the director sub-score |
| Similarity.CalculateSimilarity | lib/recommendation.ts:167-197 | the accumulation of total and maximum score gives the weighted score `Score` |
| Diversity.AddDiversity | lib/recommendation.ts:381-420 | the index loop with its used-genre and used-director sets computes `Diversify` |
| Diversity.DiversifyProperties | lib/recommendation.ts:381-420 | input of length at most target is returned unchanged; otherwise, for target ≥ 1, the result is an order-preserving subsequence that starts with the first input and holds between ceil(target/2) and target items |
| Diversity.DiversifyNonPositiveTarget | lib/recommendation.ts:392-403 | with a target ≤ 0, a non-empty input still yields its first item |
| Diversity.StepKeepsNewTags | lib/recommendation.ts:409-416 | a candidate without a new genre or director is skipped once half the target is reached; one with a new tag is taken while there is room |
| Diversity.StepCases | lib/recommendation.ts:403-416 | a step either keeps the picks or appends the candidate, and always appends below half the target |
| Diversity.RunCount | lib/recommendation.ts:392-417 | the picks start with the first input and number at most max(target, 1) |
| Diversity.RunOrder | lib/recommendation.ts:403-417 | the picks are a subsequence of the input |
| Diversity.RunStable | lib/recommendation.ts:403 | once the target is reached, no later step changes the picks |
| Ranking.TopKeysFacts | lib/recommendation.ts:494-497 | min(n, keys) keys of the map, in non-increasing count order, and every key left out counts no more than every key kept |
| Ranking.TopNFacts | components/UserPreferences.tsx:12-19 | at most n entries and none for an empty map; each entry carries its key's count; counts are non-increasing |
| Ranking.EntriesFacts | components/UserPreferences.tsx:18 | each entry pairs a key with its count |
| Reasons.BuildReason | lib/recommendation.ts:522-566 | the clause pushes compute `Reason` |
| Reasons.PushListClause | lib/recommendation.ts:526-532 | a genre, actor or director clause is appended exactly as `ListClause` says |
| Reasons.PushDurationClause | lib/recommendation.ts:553-562 | the duration clause is appended exactly as `DurationClause` says |
| Reasons.ListClauseFacts | lib/recommendation.ts:526-550 | a clause appears exactly when some trimmed token of the field is a counted key; at most one clause; it starts with its prefix |
| Reasons.MatchesOfEmpty | lib/recommendation.ts:526 | an empty field gives no matches |
| Reasons.DurationClauseFacts | lib/recommendation.ts:553-562 | the duration clause appears exactly when the mean is positive, the field has a digit run and the gap is strictly below 30 |
| Reasons.ReasonDefaultIffNoClause | lib/recommendation.ts:566 | the reason is "Based on your viewing patterns" exactly when no clause applies |
| Reasons.ClausesOrder | lib/recommendation.ts:522-566 | at most four clauses, each genre, actor, director or duration; a genre clause comes first and the duration clause last |
| Reasons.JoinFirst | lib/recommendation.ts:566 | joining starts with the first clause |
| Recommend.GenerateRecommendations | lib/recommendation.ts:423-568 | the method computes `Generate` from the fetched rows and the query outcomes |
| Recommend.ScoreMovies | lib/recommendation.ts:481-486 | the loop scores every unwatched movie in order |
| Recommend.BackfillFrom | lib/recommendation.ts:506-513 | the `forEach` push loop computes `Backfill` |
| Recommend.ExplainAll | lib/recommendation.ts:522-568 | the loop attaches each item's reason |
| Recommend.GenerateErrors | lib/recommendation.ts:434-452 | a failed history query throws the history error; a failed catalogue query throws the catalogue error; a cold start fails only on the popular query; otherwise the result fails only when the list is short, there are top genres and the genre query fails |
| Recommend.GenerateColdStart | lib/recommendation.ts:464-475 | with fewer than 3 records: at most `limit` results, all unwatched popular movies at 0.5 with "Popular movies for new users", every unwatched one among the first `limit` included |
| Recommend.GenerateWarm | lib/recommendation.ts:477-568 | otherwise: at most max(limit, 1) results, at least half of `limit` when enough candidates pass; each carries its reason and is either a scored candidate above 0.05 or a backfill item at 0.3; the best candidate comes first |
| Recommend.NeverRecommendsWatched | lib/recommendation.ts:439-475 | no result's lowercased, trimmed title is a watched title, on any path |
| Recommend.TitleKeysMembership | lib/recommendation.ts:439-441 | the watched set holds exactly the lowercased, trimmed history titles |
| Recommend.UnwatchedOnlyFacts | lib/recommendation.ts:457-459 | the unwatched filter keeps, in order, exactly the movies whose key is not watched |
| Recommend.AsPopularFacts | lib/recommendation.ts:470-474 | every popular movie becomes a 0.5 recommendation with the new-user reason |
| Recommend.ScoredByFacts | lib/recommendation.ts:482-486 | every movie is paired with its own score, in order |
| Recommend.PassingFacts | lib/recommendation.ts:487-488 | sorted best first, and holding exactly the items above 0.05 |
| Recommend.RankedByFacts | lib/recommendation.ts:481-488 | ranked items come from the catalogue with their own score above 0.05; every such movie is ranked |
| Recommend.RankedFacts | lib/recommendation.ts:478-488 | the same for the feature-vector score |
| Recommend.CandidatesSorted | lib/recommendation.ts:488 | the scored list is sorted best first |
| Recommend.CandidatesJustified | lib/recommendation.ts:481-488 | every scored candidate is an unwatched movie with its own score above 0.05 |
| Recommend.CandidatesUnwatched | lib/recommendation.ts:457-488 | scored candidates are unwatched |
| Recommend.BackfillFacts | lib/recommendation.ts:506-513 | the scored list is kept as a prefix; each appended item comes from the pool at 0.3 with an id not listed before; every pool id ends up present |
| Recommend.BackfillPrefix | lib/recommendation.ts:506-513 | backfill only appends, at most one item per pool movie |
| Recommend.BackfillAppended | lib/recommendation.ts:507-511 | appended items are pool movies at 0.3 whose id is new |
| Recommend.BackfillCovers | lib/recommendation.ts:507 | every pool id is present afterwards |
| Recommend.BackfillUnwatched | lib/recommendation.ts:502-504 | backfill from the unwatched pool adds no watched movie |
| Recommend.BackfillJustified | lib/recommendation.ts:493-514 | backfill keeps every item either a passing candidate or a 0.3 pool movie |
| Recommend.ExplainFacts | lib/recommendation.ts:522-568 | each result keeps its movie and similarity and gains that movie's reason |
| Recommend.ExplainDiverseUnwatched | lib/recommendation.ts:517-568 | diversifying and explaining adds no watched movie |
| Recommend.WarmUnwatched | lib/recommendation.ts:477-568 | the scored path recommends no watched movie |
| Recommend.DiversifyKeeps | lib/recommendation.ts:517 | the diversified list draws from the candidates, keeps the best first, and holds at most max(limit, 1) items |
| Recommend.ColdStartShape | lib/recommendation.ts:464-475 | the cold-start list's shape, for any popular rows |
| Recommend.FinishFacts | lib/recommendation.ts:517-568 | the final list's length bounds, reasons and first item |
| Recommend.FinishKeeps | lib/recommendation.ts:517-568 | any property of every backfilled item holds for every final result |
| Recommend.WarmCount | lib/recommendation.ts:517 | the scored path's result count bounds |
| Recommend.WarmEntries | lib/recommendation.ts:481-568 | each scored-path result is justified and carries its reason |
| Recommend.WarmBestFirst | lib/recommendation.ts:488-517 | the best scored candidate is the first result |
| Recommend.GenreQueryOnlyWhenShort | lib/recommendation.ts:493 | the genre query's answer matters only when a warm list is shorter than `limit` and there are top genres |
| Recommend.PopularQueryOnlyForColdStart | lib/recommendation.ts:464 | the popular query's answer matters only for a cold start |
| Recommend.ProfileReadyOfWellFormed | lib/recommendation.ts:478 | an aggregated profile yields a vector the scorer accepts |
| Recommend.ProfileWeightsPositive | lib/recommendation.ts:95-110 | normalised weights are positive |
| TitleCleaner.CleanFacts | lib/utils.ts:13-21 | the cleaned title has no ':' and no outer whitespace, is a contiguous slice of the input, and is empty for an empty input |
| TitleCleaner.StripEndQuotesFacts | lib/utils.ts:15 | exactly one '"' is removed from each end that has one, and nothing else |
| TitleCleaner.BeforeColonFacts | lib/utils.ts:17-19 | the part before the first ':' is a prefix without ':', and the whole string when there is no ':' |
| TitleCleaner.CleanPlain | lib/utils.ts:13-21 | with no colon and no end quotes, the result is the trimmed input |
| TitleCleaner.CleanSecondPass | lib/utils.ts:13-21 | a second pass changes nothing when the first result has no end quotes |
| TitleCleaner.CleanNotIdempotent | lib/utils.ts:15 | `""abc"` cleans to `"abc`, which cleans to `abc` |
| TitleCleaner.NoColonSlice | lib/utils.ts:20 | a slice of a colon-free string is colon-free |
| Enrichment.ValidateFileFacts | app/page.tsx:50-70 | the extension, MIME and size checks run in that order and the first failure is reported; a file passes exactly when all three hold, exactly 10 MiB included |
| Enrichment.PreviewFacts | app/page.tsx:72-78 | the header row then at most 4 data rows, each as long as the header row, with missing or empty cells shown as '—' |
| Enrichment.PreviewRowFacts | app/page.tsx:75 | one preview row is one cell per header |
| Enrichment.DedupTitles | app/page.tsx:265-272 | the `Map` loop gives the distinct cleaned keys, each with its first original title |
| Enrichment.UniqueTitlesFacts | app/page.tsx:265-272 | the keys are the distinct cleaned titles in first-seen order, each paired with the first original title that produced it |
| Enrichment.DedupKeys | app/page.tsx:268-270 | the map holds each cleaned key once, in first-seen order |
| Enrichment.DedupFirst | app/page.tsx:268-270 | a key maps to the first title that produced it |
| Enrichment.DedupAbsent | app/page.tsx:268 | a key no title produced is absent |
| Enrichment.DedupStep | app/page.tsx:267-270 | a title adds its key only when the key is new |
| Enrichment.EntriesFacts | app/page.tsx:272 | the entries list the keys in insertion order with their first titles |
| Enrichment.NewRecord | app/page.tsx:227-235 | a fetched record carries the user, the original title and the fetched fields, and no poster exactly when the poster is 'N/A' |
| Enrichment.MetadataStore.ProcessTitle | app/page.tsx:210-254 | an existing (title, user) row is returned with no fetch and no write; a failed fetch or a rejected insert gives null and leaves the store unchanged; otherwise the new record is appended and returned; result and new rows are `TitleOutcome` of the old rows |
| Enrichment.TitleOutcomeFacts | app/page.tsx:210-254 | a title gets a record exactly when it had a single row of the user's or was fetched and accepted; the record is the user's under the original title; the rows grow by that record exactly when it is new |
| Enrichment.RunTitlesAppend | app/page.tsx:282-300 | running the titles batch after batch equals running them all in one sequence |
| Enrichment.RunTitlesResult | app/page.tsx:289-293 | the result of entry j is `processTitle`'s answer on the rows the earlier entries left |
| Enrichment.RunTitlesFacts | app/page.tsx:213-254 | entry j gets a record exactly when its title had a single row of the user's in the store as the earlier entries left it, or its details were fetched and the store took the record; the record is the user's under that title |
| Enrichment.RunTitlesGrows | app/page.tsx:238-247 | the store only grows: the rows before the loop stay, in place |
| Enrichment.RunTitlesOwned | app/page.tsx:289-293 | every record returned is the user's, under the original title of its entry |
| Enrichment.MetadataStore.ExistingFacts | app/page.tsx:213-222 | `.single()` finds a row exactly when one row matches the title and user |
| Enrichment.CollectFulfilled | app/page.tsx:296-300 | only non-null results are collected, in order |
| Enrichment.SomesMembership | app/page.tsx:297 | a record is collected exactly when some result holds it |
| Enrichment.SomesAppend | app/page.tsx:296-300 | collecting batch by batch equals collecting all at once |
| Enrichment.ProcessBatch | app/page.tsx:289-293 | the results and the new store are `RunTitles` of the batch from the old store: one `processTitle` per title, in order |
| Enrichment.RunBatch | app/page.tsx:282-300 | one batch extends the results and the store from `RunTitles` of the titles before it to `RunTitles` of the titles up to its end, and collects its records |
| Enrichment.ScheduleBatch | app/page.tsx:282-313 | a batch runs to min(i+25, n), is reported as number b+1 with that progress, and is followed by a pause unless it is the last |
| Enrichment.ProcessInBatches | app/page.tsx:275-315 | the batches are the 25-item chunks; the per-title results and the final store are `RunTitles` of all titles from the old store; the metadata are the non-null results; batch numbers and progress are reported per batch; there is one delay per batch but the last |
| Enrichment.FetchAndStoreMetadata | app/page.tsx:256-315 | the same, starting from the deduplicated titles |
| Enrichment.BatchesFacts | app/page.tsx:277-283 | ceil(n/25) batches of 1 to 25 titles that together are the list |
| Enrichment.ProgressFacts | app/page.tsx:303-306 | progress min(i+25, n) never decreases, stays below n before the last batch and reaches n after it |
| Enrichment.ReportedStep | app/page.tsx:284-306 | each batch reports number b+1 and progress min((b+1)·25, n) |
| CsvTitles.FindTitleColumnFacts | lib/csv-parser.ts:28-49 | no column exactly when there are no headers; a column is one of the headers as spelled |
| CsvTitles.FindTitleColumnExact | lib/csv-parser.ts:32-37 | the first pattern, in priority order, that some header equals (lowercased, trimmed) picks the first such header |
| CsvTitles.FindTitleColumnPartial | lib/csv-parser.ts:40-45 | with no exact match, the first pattern that some header contains picks the first such header |
| CsvTitles.FindTitleColumnFallback | lib/csv-parser.ts:48 | with no match at all, the first header |
| CsvTitles.SearchFinds | lib/csv-parser.ts:32-45 | the search answers the first match of the first matching pattern |
| CsvTitles.SearchNone | lib/csv-parser.ts:32-45 | the search fails exactly when no header matches any pattern |
| CsvTitles.ExtractTitles | lib/csv-parser.ts:52 | no titles for an empty column name or no rows |
| CsvTitles.ExtractTitlesFacts | lib/csv-parser.ts:54-58 | titles are pairwise distinct, non-empty and trimmed, and are exactly the trimmed non-blank cells of the column |
| CsvTitles.ExtractTitlesOrder | lib/csv-parser.ts:58 | the titles of a prefix of the rows are a prefix of the titles: first-occurrence order |
| CsvTitles.ClassifyFacts | lib/csv-parser.ts:71-111 | a Delimiter error, no headers or no data rows give the matching failure, in that order; otherwise success with headers, rows and extracted titles |
| CsvLine.ParseCSVLine | scripts/tmdb-csv-parser.js:41-71 | the character loop, with its skip over an escaped quote, computes `ParseLine` |
| CsvLine.ParseLine | scripts/tmdb-csv-parser.js:67-70 | at least one field |
| CsvLine.FieldCount | scripts/tmdb-csv-parser.js:58-68 | one field more than the commas read outside quotes |
| CsvLine.ParseLineWithoutQuotes | scripts/tmdb-csv-parser.js:46-64 | a line without '"' parses as `line.split(',')` |
| CsvLine.ScanEscaped | scripts/tmdb-csv-parser.js:49-56 | inside quotes, a doubled quote yields one '"' and the closing quote is not copied |
| CsvLine.ParseEncodedLine | scripts/tmdb-csv-parser.js:41-71 | quoting every field (doubling inner quotes) and joining with ',' parses back to the same fields, as in rules 5-7 of section 2 of RFC 4180 |
| CsvLine.ScanEncoded | scripts/tmdb-csv-parser.js:46-68 | the reader's state after any prefix of quoted fields |
| CsvLine.ScanCount | scripts/tmdb-csv-parser.js:58-61 | every comma read outside quotes closes a field |
| CsvLine.ReadRecords | scripts/tmdb-csv-parser.js:7-33 | the row loop computes `Records` |
| CsvLine.RecordsFacts | scripts/tmdb-csv-parser.js:20-31 | one row per non-blank line after the header line, and every row has every trimmed header as a key |
| CsvLine.RecordsOfFacts | scripts/tmdb-csv-parser.js:20-31 | the same, for the lines after the header |
| CsvLine.BuildRowKeys | scripts/tmdb-csv-parser.js:25-27 | a row's keys are exactly the trimmed headers |
| CsvLine.BuildRowValue | scripts/tmdb-csv-parser.js:26 | under the last header with a name sits the trimmed value at its position, or '' when there is none |
| Tmdb.GenreNamesFacts | lib/tmdb-processor.ts:31-37 | genre names are, in order, exactly the names that are neither empty nor 'N/A' |
| Tmdb.CastNamesFacts | lib/tmdb-processor.ts:40-47 | at most 10 names, taken from the first 10 entries before filtering |
| Tmdb.DirectorNamesFacts | lib/tmdb-processor.ts:50-57 | in order, the shown names of the crew whose job is exactly 'Director' |
| Tmdb.FormatDurationFacts | lib/tmdb-processor.ts:60-64 | 'N/A' exactly when parseInt fails or gives 0; otherwise the text parses back to the same number; formatting twice changes nothing |
| Tmdb.ProcessMovieFacts | lib/tmdb-processor.ts:67-78 | the title is `title`, else `original_title`, else 'Unknown'; a missing runtime becomes 'N/A'; missing genres give ''; the vote fields are never empty |
| Tmdb.ProcessCreditColumns | lib/tmdb-processor.ts:81-87 | the library reads the movie id from `id` and keeps the raw cast; the script's variant (scripts/tmdb-csv-parser.js:134-140) reads `movie_id` and pre-extracts the names |
| Tmdb.CombineFacts | lib/tmdb-processor.ts:90-102 | the title is copied; no credit gives 'N/A' cast and director; empty genres or runtime give 'N/A'; no poster; the script's variant (scripts/tmdb-csv-parser.js:143-152) gives the same record |
| Tmdb.FilterValidFacts | lib/tmdb-processor.ts:105-114 | an order-preserving subsequence holding exactly the valid movies |
| Tmdb.BuildCreditsMap | lib/tmdb-processor.ts:126-129 | the `set` loop computes `CreditsMap` |
| Tmdb.CreditsMapKeys | lib/tmdb-processor.ts:126-129 | the map's ids are exactly the credits' movie ids |
| Tmdb.CreditsMapLastWins | lib/tmdb-processor.ts:128 | when credits share an id, the last one wins |
| Tmdb.BuildBatch | lib/tmdb-processor.ts:139-152 | one combined record per movie of the batch, in order |
| Tmdb.BatchRecords | lib/tmdb-processor.ts:138-152 | a batch's records are the matching slice of all stored records |
| Tmdb.BatchIsSlice | lib/tmdb-processor.ts:138 | the slice of valid movies gives the slice of records |
| Tmdb.StoredRecordsLength | lib/tmdb-processor.ts:133-152 | one record per valid movie |
| Tmdb.PopulateDatabase | lib/tmdb-processor.ts:117-172 | the batches sent are the 50-record chunks; success and error counts add up the batch sizes by insert outcome |
| Tmdb.PopulateCounts | lib/tmdb-processor.ts:137-171 | success + errors = the number of valid movies; the batches cover the records in order, with 1 to 50 each |
| SeedCatalog.CleanTitleFacts | scripts/populate-indian-movies.js:11-17 | missing input gives 'Unknown'; otherwise no outer whitespace and no two whitespace characters in a row |
| SeedCatalog.CleanDirectorFacts | scripts/populate-indian-movies.js:51-57 | missing input gives 'N/A'; otherwise cleaned like a title |
| SeedCatalog.CleanGenreFacts | scripts/populate-indian-movies.js:31-37 | missing input gives 'N/A'; otherwise trimmed, every comma followed by exactly one space, and whitespace before a comma only as the space of a preceding ', ' |
| SeedCatalog.CleanGenreDoubleComma | scripts/populate-indian-movies.js:35 | `,,` cleans to `, ,`: a space can precede a comma |
| SeedCatalog.CleanYear | scripts/populate-indian-movies.js:19-23 | a year kept lies in [1900, current year] |
| SeedCatalog.CleanYearFacts | scripts/populate-indian-movies.js:19-23 | a year is kept exactly when it parses into that range, and then it is the parsed value |
| SeedCatalog.CleanDurationFacts | scripts/populate-indian-movies.js:25-29 | "<n> min" exactly when the input parses to 0 < n < 1000; the text parses back to n; cleaning again changes nothing |
| SeedCatalog.CleanVotesFacts | scripts/populate-indian-movies.js:45-49 | the parsed count when non-negative, otherwise 0 |
| SeedCatalog.CleanCastFacts | scripts/populate-indian-movies.js:59-68 | no actors exactly when all three are missing or blank; each actor is single-spaced; 'N/A' exactly when none is left or the only one is 'N/A' |
| SeedCatalog.Actors | scripts/populate-indian-movies.js:60-65 | at most three actors |
| SeedCatalog.SeedRowFacts | scripts/populate-indian-movies.js:70-82 | a row without a name, or with no director, genre or actor, is rejected; a row whose cleaned title is neither empty nor 'Unknown' and whose genre, director or cast is not 'N/A' is accepted |
| SeedCatalog.ReadSeedRows | scripts/populate-indian-movies.js:95-117 | the valid cleaned movies in order; processed = rows, valid = kept, invalid = the rest |
| SeedCatalog.NewMoviesFacts | scripts/populate-indian-movies.js:151-158 | an order-preserving subsequence holding exactly the movies whose lowercased title is not stored |
| SeedCatalog.InsertSeedMovies | scripts/populate-indian-movies.js:170-198 | the batches are the 100-movie chunks; inserted and error counts add up the batch sizes by outcome |
| SeedCatalog.InsertCounts | scripts/populate-indian-movies.js:170-198 | inserted + errors = new movies, in ceil(n/100) batches of 1 to 100 |
| SeedCatalog.PopulateSeedCatalog | scripts/populate-indian-movies.js:84-198 | nothing is inserted when no movie is valid or the title query fails; otherwise the new movies go out in batches of 100, inserted counts the movies of the accepted batches and errors those of the failed ones, each new movie counted once |
| SeedCatalog.StripQuoteMarks | scripts/populate-indian-movies.js:14 | removing end quote marks never lengthens the text |
| SeedCatalog.CollapseSpacesFacts | scripts/populate-indian-movies.js:15 | `replace(/\s+/g, ' ')` leaves no two whitespace characters in a row |
| SeedCatalog.NormalizeCommasSpaced | scripts/populate-indian-movies.js:35 | after `replace(/\s*,\s*/g, ', ')`, every comma is followed by one space and then no whitespace |
| SeedCatalog.NormalizeCommasSeparator | scripts/populate-indian-movies.js:35 | whitespace before a comma is only the space of an earlier ', ' |
| SeedCatalog.CommaPropertiesSlice | scripts/populate-indian-movies.js:36 | the final trim keeps both comma properties |
| SeedCatalog.JoinSeveralHasComma | scripts/populate-indian-movies.js:67 | joining two or more actors shows a comma |
| ScriptCommon.LeadActorsFacts | scripts/test-improved-similarity.js:127-134 | at most three actors per movie, none 'N/A', all among the first three trimmed pieces |
| ScriptCommon.TopAboveFacts | scripts/test-improved-similarity.js:177-184 | sorted best first, at most n items, all from the input and above the threshold; an item above it is left out only when n items at least as good were kept |
| ImprovedSimilarity.CalculateImprovedSimilarity | scripts/test-improved-similarity.js:9-75 | the accumulation computes `ImprovedScore`, the weighted mean of the terms that entered |
| ImprovedSimilarity.AddListDimension | scripts/test-improved-similarity.js:14-53 | a dimension adds score·weight to the total and its weight to the maximum exactly when it enters |
| ImprovedSimilarity.ListTermEnters | scripts/test-improved-similarity.js:14-19 | a genre, actor or director dimension enters exactly when a profile key is among the field's tokens, never for an empty or 'N/A' field |
| ImprovedSimilarity.DurationTermEnters | scripts/test-improved-similarity.js:56-58 | duration enters exactly when the profile mean is positive and the field has a digit run, even with a score of 0 |
| ImprovedSimilarity.ListScoreBounds | scripts/test-improved-similarity.js:20-49 | a dimension that enters scores in (0, 1.3], or (0, 1.4] for actors |
| ImprovedSimilarity.TermsBounded | scripts/test-improved-similarity.js:14-72 | at most four terms, each score in [0, 1.4] |
| ImprovedSimilarity.WeightedMeanBounds | scripts/test-improved-similarity.js:74 | the mean lies in [0, max score], is 0 without terms, and is positive with a positive total |
| ImprovedSimilarity.ImprovedScoreBounds | scripts/test-improved-similarity.js:9-75 | the score lies in [0, 1.4], is 0 when nothing contributes, and is positive when a genre, actor or director matches |
| ImprovedSimilarity.AllNotAvailableScoresZero | scripts/test-improved-similarity.js:14-74 | a candidate whose four fields are 'N/A' scores 0 |
| ImprovedSimilarity.DurationOnly | scripts/test-improved-similarity.js:56-74 | with only duration entering, the score is the duration step |
| ImprovedSimilarity.DurationOnlyExample | scripts/test-improved-similarity.js:56-74 | mean 120 against "125 min" with no other match scores exactly 1.0 |
| ImprovedSimilarity.AggregateSystemMovies | scripts/test-improved-similarity.js:104-156 | the `forEach` aggregation computes `ScriptProfile` |
| ImprovedSimilarity.CountInto | scripts/test-improved-similarity.js:115-144 | one movie's tokens extend the counts of the movies before it |
| ImprovedSimilarity.ScriptProfileAgreesWithEngine | scripts/test-improved-similarity.js:115-156 | the genre and director counts and the mean duration equal the engine's aggregation |
| ImprovedSimilarity.ScriptActorCounts | scripts/test-improved-similarity.js:126-134 | actors are counted from each movie's first three cast members only, never 'N/A' |
| ImprovedSimilarity.ActorTokensFacts | scripts/test-improved-similarity.js:127-134 | at most three actor tokens per movie, each among that movie's first three |
| ImprovedSimilarity.RecommendationsFacts | scripts/test-improved-similarity.js:177-184 | at most 15 items above 0.05, best first, each with its own score; one left out only behind 15 at least as good |
| ImprovedSimilarity.RangesDisjoint | scripts/test-improved-similarity.js:202-208 | every score lies in exactly one of the five ranges |
| ImprovedSimilarity.RangeCountsPartition | scripts/test-improved-similarity.js:202-208 | the five range counts add up to the list's length |
| FlatScorer.ExtractProfile | scripts/test-recommendations.js:52-94 | the assignments compute `SampleProfile` |
| FlatScorer.MarkAll | scripts/test-recommendations.js:63-68 | the `forEach` assignments compute `Mark` |
| FlatScorer.SampleProfileFacts | scripts/test-recommendations.js:62-94 | every genre, first-three actor and director of the sample is a key with count 1, and nothing else is; no 'N/A'; the mean is the first digit run or 0; one movie |
| FlatScorer.MarkFacts | scripts/test-recommendations.js:66 | marking gives each distinct token the value 1 |
| FlatScorer.ScoreCandidate | scripts/test-recommendations.js:128-179 | the accumulation computes `FlatScore` and `FlatReason` |
| FlatScorer.AddListClause | scripts/test-recommendations.js:133-160 | a clause adds its weight and its text exactly when it fires |
| FlatScorer.ClausesFire | scripts/test-recommendations.js:133-173 | a list clause fires exactly when some candidate token is a profile key; the duration clause exactly when the mean is positive and the gap is strictly below 30 |
| FlatScorer.FlatScoreFacts | scripts/test-recommendations.js:129-173 | the score lies in [0, 1]; it is 0 exactly when no clause fires, and above 0.1 exactly when a genre, actor or director clause fires |
| FlatScorer.FlatReasonFacts | scripts/test-recommendations.js:138-178 | the reason is empty exactly when no clause fires; at most four clauses; it starts with the genre clause when that fires |
| FlatScorer.UnwatchedFacts | scripts/test-recommendations.js:120-122 | the unwatched movies are exactly those whose key differs from the sample's |
| FlatScorer.TopRecommendationsFacts | scripts/test-recommendations.js:127-183 | sorted best first, at most 10, each unwatched with its own score above 0.1 and its own reason |
| FlatScorer.TopRecommendationsComplete | scripts/test-recommendations.js:181-183 | an unwatched movie above 0.1 is left out only behind 10 results at least as good |
| FlatScorer.WatchedMovieExcluded | scripts/test-recommendations.js:196-204 | the check never finds the watched movie among the results |
| FlatScorer.RankedMovies | scripts/test-recommendations.js:181-183 | the ranking draws from the scored movies and drops one only behind 10 at least as good |
| RecommendationView.FormatDurationFacts | components/movie-recommendations.tsx:87-96 | text without a digit comes back unchanged; otherwise the shown text reads back as the first digit run, ends in "m", and has an hour part exactly when the run is at least 60 |
| RecommendationView.StoredDurationShown | components/movie-recommendations.tsx:87-96 | a stored "<n> min" is shown as n minutes |
| RecommendationView.HoursShown | components/movie-recommendations.tsx:91-93 | "{h}h {m}m" reads back as the minutes it came from |
| RecommendationView.MinutesShown | components/movie-recommendations.tsx:93 | "{m}m" reads back as m |
| RecommendationView.BadgeFacts | components/movie-recommendations.tsx:98-110 | text and colour always share a tier; the top tier is exactly ≥ 0.8 and the bottom tier exactly < 0.4 |
| RecommendationView.BadgeMonotone | components/movie-recommendations.tsx:98-110 | a higher similarity never gets a lower text or colour tier |
| RecommendationView.MathRoundFacts | components/movie-recommendations.tsx:114 | `Math.round` lands within half of its argument and reaches k exactly from k − 0.5 |
| RecommendationView.MatchLevelFacts | components/movie-recommendations.tsx:113-120 | EXCELLENT exactly from 0.795, GREAT or better from 0.595, GOOD or better from 0.395, LOW exactly below 0.195 |
| RecommendationView.MatchLevelMonotone | components/movie-recommendations.tsx:113-120 | a higher similarity never gets a lower level |
| RecommendationView.MatchesOfFacts | components/movie-recommendations.tsx:127-129 | a profile key matches exactly when the field is present, not 'N/A', and lists it; distinct keys give distinct matches |
| RecommendationView.MatchClauseFacts | components/movie-recommendations.tsx:131 | the clause starts with the match count, says "matches" exactly when the count exceeds 1, and ends with the first two names joined |
| RecommendationView.ClauseForFacts | components/movie-recommendations.tsx:130-131 | one clause exactly when something matches, starting with a digit |
| RecommendationView.MatchReasonFacts | components/movie-recommendations.tsx:123-154 | "Similar content style" exactly when no clause applies; at most three clauses; none exactly when no category matches; the genre clause comes first |
| RecommendationView.TopLabelFacts | components/movie-recommendations.tsx:227-235 | "N/A" for an empty map; any other label is a key with the maximal count, and "N/A" on a non-empty map means a maximal key is '' or 'N/A' |
| PreferencesView.SummaryFacts | components/UserPreferences.tsx:12-31 | at most three genres, three actors and one director, each with its count; 'N/A' never listed as actor or director; a director is listed exactly when a non-'N/A' director was counted, and no such director counts more |
| PreferencesView.WithoutNotAvailableFacts | components/UserPreferences.tsx:24-30 | the copy drops 'N/A' and keeps every other key, its count and its order |
| PreferencesView.TopDirectorFacts | components/UserPreferences.tsx:31 | one entry exactly when the map has a key, and no key counts more |
| PreferencesView.DurationLabelFacts | components/UserPreferences.tsx:34 | "Above 90 min" exactly when the mean exceeds 90 |

## Left out

- Store queries and inserts. These are the Supabase client calls in lib/recommendation.ts, app/page.tsx, lib/tmdb-processor.ts and the scripts.
  - Query results are `Fetch` inputs, either rows or a failure.
  - Insert outcomes are functions of the batch number and the batch.
  - The metadata store of the upload page is a class holding its rows.
- The metadata provider (lib/omdb-service.ts) is a function parameter that may fail. Exceptions from it or from the store become its `None` result.
- lib/supabase.ts is not part of this model; only the record shape is used.
- The random shuffles of the popular and genre pools. The pools are inputs, taken as already shuffled.
- The server-side `ilike` genre filter. The genre query is a function parameter.
- `calculateCosineSimilarity` is dead code that needs `Math.sqrt`.
- `Promise.allSettled`: the titles of a batch are processed one after another, in index order.
- `setTimeout` pacing: only the number of delays is modelled.
- IEEE-754 rounding. Scores, weights and means are exact reals. For example, `1.0 - 2 * 0.2` is exactly 0.6 here.
- `Math.round` is modelled as the floor of x + 0.5.
- `toFixed` and console output are not modelled.
- `cleanRating` and `parseFloat`. The rating is not part of the stored seed record.
- `JSON.parse` in the TMDB transforms. It is a `JsonReader` parameter that either parses or fails; a failure gives an empty list, as the source does.
- File reads, the CSV stream of the seed script and the `Papa.parse` call.
  - The CSV reader of scripts/tmdb-csv-parser.js starts from the file's text.
  - lib/csv-parser.ts starts from Papa's error types, fields and rows.
- The early `return` of `fetchAndStoreMetadata` when there is no session, and the React state setters around it. Progress is returned as the reported batch numbers and progress values.
- Database-generated ids and timestamps, and the fixed system user id. Ids are strings given with the candidate movies.
- The user-movie branch of scripts/test-improved-similarity.js, which only prints.
- The console match labels of scripts/test-improved-similarity.js:187-192. The same tiers are proved for `RecommendationView.GetMatchLevel`.
- The JSX, hooks and rendering of the components and pages.
- `toLowerCase` is ASCII only; Unicode case mapping is not modelled.
- Object keys that look like integers, which JavaScript enumerates first, and inherited prototype keys. Dictionary keys keep insertion order.
- `parseInt` beyond the safe-integer range is not modelled; integers are unbounded.
- PreferencesView.WithoutNotAvailable: the spread copy and the in-place `delete` on it are a value-level `Delete`. The unchanged input maps are therefore immediate, and the aliasing is not modelled.
- The upload page takes its titles from the first header's column of each row (app/page.tsx:130). It does not call `findTitleColumn` or `extractMovieTitles`. `FetchAndStoreMetadata` takes the titles as a parameter, so `CsvTitles` is not connected to the enrichment in this model.
- The other scripts (populate-tmdb.js, populate-database.js and the connection and setup checks), next.config.js and the UI-only components are not part of this model.
