# Nyasah insights and recommendation engine, in Dafny

This project models the engine of the nyasah backend that turns reviews and
social-proof events into signals and advice. It covers:

- the signal utilities: engagement ratios with zero-view guards, mean sentiment,
  engagement and rating, twelve weekly time frames and the bucketing of records
  into them, keyword and numbered-list parsing, top-K rankings, the confidence
  formula, the three pattern detectors and their canned recommendations;
- the analyzers that compose them: sentiment, content, keyword and engagement;
- the recommender, which emits three pattern recommendations and suggests
  actions for a product;
- configuration: the provider factory, loading the configuration from the
  environment, and the service object that rebuilds its engines when the
  configuration changes.

Each source file has its own module. `Records` holds the record shapes, as the
engine uses them. `Stats`, `Strings`, `Tally` and `Ranking` hold the shared pieces:
means, Go's `strings.Split`/`TrimSpace`/`TrimLeft`, counting tables, and
max-selection rankings.

Conventions of the model:

- Ratios are `real` and counts are `nat`.
- Time is an integer number of seconds, with `now` passed in. A week is 7 × 86400
  seconds, and the hour of day is taken in UTC.
- The database is a value holding the stored records and the set of queries that
  fail. Fetches are filters over it, and SQL `BETWEEN` is inclusive at both ends.
- The language-model provider is an oracle: a function from a prompt to success
  with a reply, or failure with an error. Float scanning (`Sscanf`,
  `strconv.ParseFloat`) is an oracle of the same kind.
- Go's `sort.Slice` and map iteration are not stable. Every ranking and every
  "dominant bucket" is therefore specified up to ties: some element of maximal
  count, and no element left out that beats one kept.
- Loops in the source are loops here (methods with invariants). Each method is
  proved equal to a specification function, and the lemmas are stated about that
  function.
- `GroupByTimeFrames` fills a twelve-slot array in place. `BatchAnalyzeSentiment`
  writes into an array of scores. `Service` is a class whose fields
  `UpdateConfig` reassigns.

Where the intent and the code disagree, the model follows the code:

- The confidence is capped at 1 but not floored at 0, although the comment at
  services/ai/utils/recomendations.go:44 says it is kept between 0 and 1
  (`Recommendations.ConfidenceUnclampedBelow`).
- A parsed sentiment score is not clamped to [-1, 1], the range the prompt at
  services/ai/analyzers/sentiment_analyzer.go:23 asks for
  (`SentimentAnalysis.ScoreNotClamped`).
- Bucketing uses open intervals, so a record exactly on a frame boundary lands in
  no frame (`Engagement.BoundaryDropped`). The per-frame database fetches use
  inclusive bounds, so such a record is fetched for two adjacent frames
  (`TimeFrames.BoundaryFetchedTwice`).
- The configuration loader accepts "meta", "openai" and "huggingface". It rejects
  "llama", which is the factory's own name for that backend
  (`Configuration.LlamaNameRejected`).
- The content analyzer's keyword ranking uses the sentiment analyzer's raw phrase
  list, which keeps empty phrases. The empty phrase can therefore be counted and
  ranked (`SentimentAnalysis.KeywordsAreNonEmptyPhrases` states how the two lists
  differ).

## Model

| member | source | states |
|---|---|---|
| Engagement.ReviewEngagement | services/ai/utils/engagement.go:8-15 | 0 without views, otherwise (likes + shares) / views; never negative; at most 1 when likes + shares ≤ views |
| Engagement.ProofEngagement | services/ai/utils/engagement.go:17-23 | 0 without views, otherwise conversions / views; never negative; at most 1 when conversions ≤ views |
| Engagement.CalculateAverageSentiment | services/ai/utils/engagement.go:25-35 | the accumulating loop yields the mean sentiment, 0 for no reviews |
| Stats.MeanPermutation | services/ai/utils/engagement.go:25-35 | a mean does not depend on the order of the records |
| Stats.MeanBounds | services/ai/utils/engagement.go:25-35 | a mean of values in [lo, hi] lies in [lo, hi], and is 0 for no values |
| Engagement.CalculateAverageEngagement | services/ai/utils/engagement.go:37-56 | the two loops yield the mean ratio over every review and event, zero-view ones included |
| Engagement.AverageEngagementBounds | services/ai/utils/engagement.go:37-56 | over plausible records the average engagement lies in [0, 1], and is 0 with no records |
| Engagement.ZeroViewReviewDilutes | services/ai/utils/engagement.go:41-44 | a zero-view review still counts: it adds 0 to the total and 1 to the count |
| Engagement.AverageEngagementPositive | services/ai/utils/engagement.go:37-56 | one record with a positive ratio makes the average positive |
| Engagement.FirstFrameSpec | services/ai/utils/engagement.go:69-75 | a record goes to frame i exactly when i is the lowest frame whose open interval contains its time |
| Engagement.BoundaryDropped | services/ai/utils/engagement.go:71 | a record exactly on a frame boundary goes to no frame |
| Engagement.OutsideDropped | services/ai/utils/engagement.go:69-85 | a record from now or later, or from twelve weeks ago or earlier, goes to no frame |
| Engagement.ReviewsInFrameSpec | services/ai/utils/engagement.go:69-76 | a frame's reviews come from the input, no more often than there, and are exactly the reviews placed in that frame |
| Engagement.ProofsInFrameSpec | services/ai/utils/engagement.go:78-85 | a frame's events come from the input, and are exactly the events placed in that frame |
| Engagement.FramesDisjoint | services/ai/utils/engagement.go:69-76 | no review is in two frames |
| Engagement.RebucketFrame | services/ai/utils/engagement.go:69-76 | bucketing a frame's own reviews again keeps all of them in that frame and puts none elsewhere |
| Engagement.FindFrame | services/ai/utils/engagement.go:70-75 | the inner scan with break finds the first frame strictly containing the time, or none |
| Engagement.BucketReviews | services/ai/utils/engagement.go:69-76 | after the review loop, each array slot holds exactly its frame's reviews, in input order, with its bounds unchanged |
| Engagement.BucketProofs | services/ai/utils/engagement.go:78-85 | after the event loop, each array slot holds exactly its frame's events, in input order |
| Engagement.GroupByTimeFrames | services/ai/utils/engagement.go:58-88 | twelve frames with weekly bounds ending at now; frame i holds the reviews and events placed in it, in input order |
| TimeFrames.GetTimeFrames | services/ai/utils/time.go:25-35 | twelve empty frames; frame 0 ends at now; each spans one week; each frame ends where the one before it starts |
| TimeFrames.ReviewsBetween | services/ai/utils/time.go:37-41 | a review is fetched exactly when it is the tenant's and its time lies in [start, end] |
| TimeFrames.ProofsBetween | services/ai/utils/time.go:43-47 | an event is fetched exactly when it is the tenant's and its time lies in [start, end] |
| TimeFrames.BoundaryFetchedTwice | services/ai/utils/time.go:39 | a review on the boundary between frames k and k+1 is in both frames' fetches |
| Parsing.ParseKeywords | services/ai/utils/parsing.go:7-19 | the loop yields the trimmed non-empty pieces between commas, in order; no keyword is empty, padded or holds a comma; at most commas + 1 of them |
| Parsing.TrimKeywords | services/ai/utils/parsing.go:11-16 | the loop keeps, in order, the trimmed pieces that are not empty |
| Parsing.KeywordsShape | services/ai/utils/parsing.go:8-16 | every keyword is comma-free and neither starts nor ends with white space |
| Parsing.KeywordsOfJoin | services/ai/utils/parsing.go:8-16 | parsing a comma-joined list of comma-free parts gives back the trimmed non-empty parts |
| Parsing.KeywordsConcat | services/ai/utils/parsing.go:8-16 | the keywords of two lists joined by a comma are those of the first, then those of the second |
| Strings.SplitCount | services/ai/utils/parsing.go:8 | splitting at a separator gives one more piece than there are separators |
| Strings.SplitJoin | services/ai/utils/parsing.go:8 | splitting undoes joining, for separator-free pieces |
| Strings.JoinSplit | services/ai/utils/parsing.go:8 | joining undoes splitting |
| Strings.TrimSpace | services/ai/utils/parsing.go:12 | the result is the infix s[i..j] of the input with only white space before i and after j; it neither starts nor ends with white space, and is empty exactly when the input is all white space |
| Strings.TrimLeft | services/ai/utils/recomendations.go:20 | the result is a suffix of the input, what was removed is all in the cut set, and the result does not start with a cut-set character |
| Parsing.CalculateAverageScore | services/ai/utils/parsing.go:21-31 | 0 for no scores, otherwise the mean: the result times the count is the sum |
| Insights.ViewedReviewsSpec | services/ai/utils/insights.go:43-49 | exactly the reviews with views take part, all of them when all have views, none when none has |
| Insights.ViewedProofsSpec | services/ai/utils/insights.go:51-57 | exactly the events with views take part |
| Insights.SumViewedReviews | services/ai/utils/insights.go:43-49 | the review loop sums the ratios of the reviews with views and counts them |
| Insights.SumViewedProofs | services/ai/utils/insights.go:51-57 | the event loop sums the ratios of the events with views and counts them |
| Insights.CalculateOverallEngagement | services/ai/utils/insights.go:39-64 | the result is the mean ratio over the records with views |
| Insights.OverallEngagementNoViews | services/ai/utils/insights.go:59-63 | with no record that has views the overall engagement is 0 |
| Insights.OverallEngagementIgnoresUnviewed | services/ai/utils/insights.go:43-49 | adding a review without views does not move the overall engagement |
| Insights.OverallEngagementAllViewed | services/ai/utils/insights.go:39-64 | when every record has views, overall and average engagement agree |
| Insights.OverallEngagementBounds | services/ai/utils/insights.go:39-64 | over plausible records the overall engagement lies in [0, 1] |
| Insights.CalculateOverallSentiment | services/ai/utils/insights.go:66-77 | the mean sentiment, 0 for no reviews |
| Insights.AllKeywordsSpec | services/ai/utils/insights.go:82-86 | a word is counted exactly when some review lists it |
| Insights.CountKeywords | services/ai/utils/insights.go:80-86 | the increment loops build the count of every listed keyword |
| Insights.ExtractTopKeywords | services/ai/utils/insights.go:79-111 | min(5, distinct keywords) distinct words, each listed by some review, in non-increasing frequency, none left out more frequent than one kept |
| Insights.GenerateProductInsights | services/ai/utils/insights.go:15-37 | rating and sentiment are means (0 without reviews), engagement is the overall engagement, and the top keywords are as above |
| Ranking.TopKeys | services/ai/utils/insights.go:94-108 | sort-then-truncate: min(k, keys) distinct keys, non-increasing counts, no key left out that outnumbers one kept |
| Recommendations.CleanLine | services/ai/utils/recomendations.go:17-20 | the item is a suffix of the trimmed line whose removed prefix is all bullet characters; it is empty, or starts with no bullet character and ends with no white space |
| Recommendations.StripBullet | services/ai/utils/recomendations.go:20 | the item is a suffix of the line whose removed prefix is all digits, full stops and spaces; it is empty, or starts with no bullet character and still ends in no white space |
| Recommendations.ParseRecommendations | services/ai/utils/recomendations.go:10-31 | the loop yields the cleaned non-empty lines in order; no item is empty, starts with a digit, '.' or space, or ends with white space; at most lines-many items |
| Recommendations.CleanLines | services/ai/utils/recomendations.go:15-28 | the loop keeps, in order, the cleaned lines that are not empty |
| Recommendations.ItemsShape | services/ai/utils/recomendations.go:17-25 | every item starts with no bullet character and ends with no white space |
| Recommendations.ItemsConcat | services/ai/utils/recomendations.go:12-30 | the items of two answers joined by a line break are those of the first, then those of the second |
| Recommendations.SampleWeight | services/ai/utils/recomendations.go:36-39 | size / 1000, capped at 1; reaches 1 exactly from 1000 samples |
| Recommendations.CalculateConfidence | services/ai/utils/recomendations.go:34-50 | never above 1; below the cap it is 0.4 × weight + 0.6 × rate |
| Recommendations.ConfidenceBounds | services/ai/utils/recomendations.go:34-50 | for a real sample and a rate in [0, 1] the confidence lies in [0, 1] |
| Recommendations.ConfidenceMonotone | services/ai/utils/recomendations.go:34-50 | more samples or a higher rate never lower the confidence |
| Recommendations.ConfidenceExamples | services/ai/utils/recomendations.go:34-50 | (1000, 1) gives 1, (0, 0) gives 0, (500, 0.8) gives 0.68, (5000, 0.5) gives 0.7 |
| Recommendations.ConfidenceUnclampedBelow | services/ai/utils/recomendations.go:45-47 | only the top is capped: a negative sample size gives a negative confidence |
| Recommendations.Performers | services/ai/utils/recomendations.go:53-89 | one performer per review, then one per event, in input order |
| Recommendations.FindTopPerformers | services/ai/utils/recomendations.go:53-110 | min(10, records) performers drawn from the records, by non-increasing score, none left out that scores higher than one kept |
| Recommendations.PerformersTagged | services/ai/utils/recomendations.go:66-89 | each performer is a review tagged "review" or an event tagged with its own type, scored by its ratio |
| Ranking.TopBy | services/ai/utils/recomendations.go:91-98 | sort-then-truncate over a list: min(k, n) elements of the list by non-increasing score, none left out that scores higher than one kept |
| Patterns.Rate | services/ai/utils/patterns.go:22-32 | the share of events with engagement rate above 0.5: in [0, 1], 0 with no events |
| Patterns.SuccessesSpec | services/ai/utils/patterns.go:22-32 | all events count as successes exactly when all did well, none exactly when none did |
| Patterns.AllSuccessfulRate | services/ai/utils/patterns.go:22-32 | when every event did well the rate is 1 |
| Patterns.TwoDigitsInjective | services/ai/utils/patterns.go:46 | distinct hours get distinct two-digit labels |
| Patterns.Detect | services/ai/utils/patterns.go:15-35 | the counting loop yields the detected pattern of its kind and dimension |
| Patterns.TallyEvents | services/ai/utils/patterns.go:22-28 | the loop leaves in the distribution, for every key, the number of events with that key, and counts the events whose engagement rate exceeds 0.5 |
| Patterns.AnalyzeContentPattern | services/ai/utils/patterns.go:15-35 | the "content" pattern, counted by media type |
| Patterns.AnalyzeTimingPattern | services/ai/utils/patterns.go:37-58 | the "timing" pattern, counted by hour of creation |
| Patterns.AnalyzePlacementPattern | services/ai/utils/patterns.go:60-80 | the "placement" pattern, counted by event type |
| Patterns.DetectedSpec | services/ai/utils/patterns.go:15-35 | the kind is the detector's; the sample size is the number of events; the counts sum to it; a key is counted exactly when some event has it, as often as it occurs; the rate is in [0, 1] |
| Patterns.KeysSpec | services/ai/utils/patterns.go:23-24 | a key appears exactly when some event has it along the dimension |
| Tally.HistogramSpec | services/ai/utils/patterns.go:23-24 | a counting table holds exactly the keys seen, each with its number of occurrences |
| Tally.TotalHistogram | services/ai/utils/patterns.go:23-24 | the counts of a table sum to the number of items counted |
| Ranking.Peak | services/ai/utils/patterns.go:96-104 | the max loop finds a key of maximal count above the floor, or reports that none exists |
| Patterns.GenerateContentRecommendation | services/ai/utils/patterns.go:95-114 | the sentence of some media type of maximal positive count, the "Diversify" sentence when none |
| Patterns.GenerateTimingRecommendation | services/ai/utils/patterns.go:116-137 | names some hour of maximal count followed by ":00", or the "Distribute" sentence for no hours |
| Patterns.GeneratePlacementRecommendation | services/ai/utils/patterns.go:139-160 | the sentence of some event type of maximal positive count, the "mix" sentence when none |
| Patterns.GenerateRecommendation | services/ai/utils/patterns.go:82-93 | dispatches on the kind; an unknown kind gives the default sentence |
| Patterns.PeakKeyUnique | services/ai/utils/patterns.go:99-104 | with a strict winner the max loop has one outcome |
| Patterns.ContentStrictWinner | services/ai/utils/patterns.go:95-114 | a media type that strictly outnumbers every other decides the content sentence |
| Patterns.PlacementStrictWinner | services/ai/utils/patterns.go:139-160 | an event type that strictly outnumbers every other decides the placement sentence |
| Patterns.TimingNamesPeakHour | services/ai/utils/patterns.go:123-136 | the timing sentence names an hour of maximal count, or is "Distribute" when no hour was seen |
| Patterns.EmptyPatternsFallBack | services/ai/utils/patterns.go:95-160 | with no events the three detectors recommend their fallback sentences |
| SentimentAnalysis.AnalyzeSentimentSpec | services/ai/analyzers/sentiment_analyzer.go:22-53 | succeeds exactly when the chat call and the scan succeed; a chat error is passed on; otherwise the scanned score |
| SentimentAnalysis.ScoreNotClamped | services/ai/analyzers/sentiment_analyzer.go:46-52 | a scanned 3.0 is returned as 3.0 |
| SentimentAnalysis.FirstFailureUnique | services/ai/analyzers/sentiment_analyzer.go:57-61 | there is one first failing review |
| SentimentAnalysis.BatchSentimentSpec | services/ai/analyzers/sentiment_analyzer.go:55-65 | all-or-nothing: success exactly when every analysis succeeds, then one score per review, score i from review i; otherwise the first failure's error |
| SentimentAnalysis.BatchAnalyzeSentiment | services/ai/analyzers/sentiment_analyzer.go:55-65 | the array loop yields the batch result, and stops at the first failure with no later review analysed |
| SentimentAnalysis.ExtractKeyPhrases | services/ai/analyzers/sentiment_analyzer.go:67-97 | fails exactly when the chat call fails; otherwise commas + 1 trimmed phrases, trimmed in place |
| SentimentAnalysis.TrimPieces | services/ai/analyzers/sentiment_analyzer.go:92-94 | the in-place loop keeps the number of pieces and replaces each by its trimmed form |
| SentimentAnalysis.KeyPhrasesShape | services/ai/analyzers/sentiment_analyzer.go:91-96 | commas + 1 phrases, each comma-free and unpadded, empty ones kept |
| SentimentAnalysis.KeywordsAreNonEmptyPhrases | services/ai/analyzers/sentiment_analyzer.go:91-96 | the keyword parser's output is the phrase list without its empty phrases |
| Harvesting.HarvestSpec | services/ai/analyzers/keyword_analyzer.go:45-54 | a word is counted exactly when some review's extraction succeeds and yields it |
| Harvesting.HarvestSkipsFailures | services/ai/analyzers/keyword_analyzer.go:45-48 | a review whose extraction fails adds nothing |
| Tally.CountInto | services/ai/analyzers/keyword_analyzer.go:50-52 | the increment loop (also at insights.go:84-86 and content_analyzer.go:70) extends a counting table by exactly the words given |
| ContentAnalysis.ProcessQuerySpec | services/ai/analyzers/content_analyzer.go:25-50 | the reply or the error of the chat call, whatever the tenant |
| ContentAnalysis.AnalyzeSentimentTrend | services/ai/analyzers/content_analyzer.go:52-58 | the batch scores unchanged when the batch succeeds, the empty list when it fails |
| ContentAnalysis.CountPhrases | services/ai/analyzers/content_analyzer.go:62-72 | the loops count every phrase of every review whose extraction succeeds |
| ContentAnalysis.ExtractKeywords | services/ai/analyzers/content_analyzer.go:60-96 | min(10, distinct phrases) distinct phrases, each from a successful extraction, by non-increasing frequency, none left out more frequent than one kept |
| ContentAnalysis.CalculateEngagementScore | services/ai/analyzers/content_analyzer.go:98-119 | the average engagement over every record, 0 when both lists are empty |
| ContentAnalysis.FrameTrends | services/ai/analyzers/content_analyzer.go:126-132 | entry i is computed from frame i alone: its mean sentiment and its average engagement |
| ContentAnalysis.AnalyzeTrends | services/ai/analyzers/content_analyzer.go:121-143 | never an error; twelve entries per trend, entry i from the records placed in frame i; the top performers as ranked; the analysis time is now |
| ContentAnalysis.EngagementTrendBounds | services/ai/analyzers/content_analyzer.go:131 | over plausible records every engagement-trend entry lies in [0, 1] |
| KeywordAnalysis.ExtractKeywordsSpec | services/ai/analyzers/keyword_analyzer.go:18-31 | fails exactly when the provider fails, with its error; otherwise the parsed keywords of the reply |
| KeywordAnalysis.CountKeywords | services/ai/analyzers/keyword_analyzer.go:43-55 | the loops count every keyword of every review whose extraction succeeds |
| KeywordAnalysis.AnalyzeTrends | services/ai/analyzers/keyword_analyzer.go:33-62 | succeeds exactly when every frame's fetch succeeds, otherwise the first failing fetch's error; one table per frame, counting the keywords of that frame's fetched reviews |
| EngagementAnalysis.AnalyzeEngagement | services/ai/analyzers/engagement_analyzer.go:19-23 | the average engagement of the pair; in [0, 1] for plausible records; 0 when neither has views |
| EngagementAnalysis.AnalyzeTrends | services/ai/analyzers/engagement_analyzer.go:25-47 | succeeds exactly when both fetches of every frame succeed, otherwise the first failing fetch's error; entry i is the average engagement of frame i's fetched records |
| Recommender.FindProduct | services/ai/recommenders/recommender.go:31 | a stored product with that id when there is one, the zero product otherwise |
| Recommender.ProductReviews | services/ai/recommenders/recommender.go:32 | exactly the product's reviews |
| Recommender.ProductProofs | services/ai/recommenders/recommender.go:33 | exactly the product's events |
| Recommender.TenantProofs | services/ai/recommenders/recommender.go:116-133 | exactly the tenant's events |
| Recommender.HighEngagementProofs | services/ai/recommenders/recommender.go:109-111 | exactly the tenant's events with engagement rate above 0.7 |
| Recommender.FetchProduct | services/ai/recommenders/recommender.go:31 | the stored product with that id, or the zero product when there is none or the unchecked query fails |
| Recommender.FetchProductReviews | services/ai/recommenders/recommender.go:32 | exactly the product's reviews, or none when the unchecked query fails |
| Recommender.FetchProductProofs | services/ai/recommenders/recommender.go:33 | exactly the product's events, or none when the unchecked query fails |
| Recommender.FetchHighEngagement | services/ai/recommenders/recommender.go:109-111 | exactly the tenant's events with engagement rate above 0.7, or none when the unchecked query fails |
| Recommender.RecentCandidates | services/ai/recommenders/recommender.go:118-121 | exactly the tenant's events, or none when the unchecked timing query fails |
| Recommender.FetchTenantProofs | services/ai/recommenders/recommender.go:128-130 | exactly the tenant's events, or none when the unchecked placement query fails |
| Recommender.FailedProductQueries | services/ai/recommenders/recommender.go:31-44 | with all three product queries failed the prompt names no product, rating 0, no reviews and engagement 0 |
| Recommender.GenerateActions | services/ai/recommenders/recommender.go:26-64 | the three fixed actions when the chat call fails, otherwise the parsed items of the reply; never an empty action |
| Recommender.ContentPattern | services/ai/recommenders/recommender.go:107-114 | the content pattern of the tenant's high-engagement events as fetched |
| Recommender.TimingPattern | services/ai/recommenders/recommender.go:116-124 | the timing pattern of the tenant's 1000 newest events as fetched, newest first |
| Recommender.PlacementPattern | services/ai/recommenders/recommender.go:126-133 | the placement pattern of all the tenant's events as fetched |
| Recommender.AnalyzeSuccessPatterns | services/ai/recommenders/recommender.go:89-105 | three patterns, in the order content, timing, placement |
| Recommender.ContentPatternAllSuccessful | services/ai/recommenders/recommender.go:109-113 | with any high-engagement event the content rate is 1, so its confidence is at least 0.6 |
| Recommender.TimingSampleBounded | services/ai/recommenders/recommender.go:118-123 | the timing sample is min(1000, tenant events), never above 1000, and 0 when the query fails |
| Recommender.PatternConfidenceBounds | services/ai/recommenders/recommender.go:74-80 | every pattern's confidence lies in [0, 1] |
| Recommender.RecommendAll | services/ai/recommenders/recommender.go:73-84 | one recommendation per pattern, in order, each with the tenant, the kind, a sentence the pattern recommends and its confidence |
| Recommender.GenerateRecommendations | services/ai/recommenders/recommender.go:66-87 | never an error; three recommendations typed content, timing, placement, each describing its pattern, with confidence in [0, 1]; a pattern whose query failed gets its fallback sentence with confidence 0 |
| Recommender.NoEventsFallBack | services/ai/utils/patterns.go:95-160 | a recommendation for a pattern over no events is its kind's fallback sentence, with confidence 0 |
| Recommender.FailedPatternQueries | services/ai/recommenders/recommender.go:107-133 | a failed, unchecked pattern query leaves its pattern empty, so its recommendation is the fallback sentence with confidence 0 |
| ProviderFactory.CreateProviderSpec | services/ai/factory/provider_factory.go:18-55 | succeeds exactly for a supported name with its required key present, with a backend of that kind; any other name is rejected by the default branch |
| ProviderFactory.HuggingFaceModel | services/ai/factory/provider_factory.go:34-43 | the configured model, "gpt2" when none |
| ProviderFactory.ClaudeRejected | services/ai/factory/provider_factory.go:10-16 | the commented-out "claude" is rejected |
| ProviderFactory.EmptyApiKeyAccepted | services/ai/factory/provider_factory.go:20-25 | a present but empty OpenAI key is accepted |
| Configuration.Atoi | config/config.go:67 | an optional sign and at least one digit; error otherwise or outside 64 bits; the value spelled |
| Configuration.AtoiItoa | config/config.go:67 | reading back a 64-bit integer's spelling gives the integer |
| Configuration.AtoiRejectsNonDigit | config/config.go:67-70 | text with a character that is neither a digit nor a leading sign is rejected |
| Configuration.GetEnvAsIntSpec | config/config.go:62-72 | the fallback when unset or empty, otherwise the parse of the value, errors included |
| Configuration.GetEnvAsIntItoa | config/config.go:62-72 | a variable holding an integer's spelling reads as that integer |
| Configuration.GetProvider | config/config.go:86-98 | succeeds exactly for "meta", "openai" and "huggingface", and then with a supported backend name |
| Configuration.LlamaNameRejected | config/config.go:95-96 | "llama" itself is rejected |
| Configuration.LoadSpec | config/config.go:23-53 | succeeds exactly when temperature, token limit and provider are all acceptable, with a supported provider; otherwise the first error in that order |
| Configuration.LoadDefaults | config/config.go:29-52 | with nothing set: port 8080, the default secret, nyasah.db, Llama, llama3.2, 0.45 and 1000 |
| Services.ProviderConfig | services/service.go:23-27 | the settings always have the keys api_key, model and server_url, and model is the configured one |
| Services.ProviderConfigCreates | services/service.go:29-34 | with those settings creation fails exactly for an unsupported name, and OpenAI always succeeds |
| Services.LoadedConfigNeedsNoFallback | services/service.go:29-34 | a loaded configuration never triggers the OpenAI fallback |
| Services.Service.constructor | services/service.go:22-42 | the configured backend when it can be created, otherwise OpenAI with the configuration switched to OpenAI; both engines on one backend |
| Services.Service.UpdateConfig | services/service.go:44-61 | fails exactly for an unsupported name, with its error and nothing changed; otherwise both engines rebuilt on the new backend and the configuration replaced |

## Left out

- Provider backends (OpenAI, HuggingFace and Llama HTTP clients): the provider is an oracle from prompt to reply or error.
- Prompt wording, `fmt.Sprintf` formatting and the `Choices[0]` indexing of a reply: a prompt is a value that carries the text or figures it embeds.
- Strings.Split / Strings.TrimSpace: strings are sequences of Unicode scalar values, not Go byte strings, so a reply holding invalid UTF-8 (which Go's `TrimSpace` reads as U+FFFD and keeps) cannot be expressed.
- Float scanning (`Sscanf`, `strconv.ParseFloat`): oracles from text to a real or an error. IEEE rounding is not modelled: ratios are exact reals.
- Calendar and time-zone semantics of `time.Now`, `AddDate` and `Format`: time is integer seconds, and `now` is a parameter. Where the source calls `time.Now` twice, one `now` stands for both.
- Database queries and joins: filters over the stored sequences. Any query can be listed as failing: a per-frame fetch then reports its error, while the recommender's six queries, whose errors the code never checks, leave the zero product or no records. The join on proof performances is treated as always present.
- Gin handlers, middleware, persistence and the tests: outside the engine.
- `.env` file loading: the environment map is the one seen after loading.
- Recommendations.FindTopPerformers: does not model the `Engagement` and `CreatedAt`-string fields of its output maps; it returns the ranked records themselves.
- Services.Service.constructor: the write of `config.Provider` goes to the service's own copy of the configuration. The caller's aliased `Config` is not modelled.
- The service's delegating methods (`ProcessQuery`, `GenerateProductInsights`, `GenerateRecommendations`, `AnalyzeTrends` on `Service`): they call methods the engines do not define, or with different arguments.
- Analyzer and recommender constructors: the service passes a provider where the constructors take an API key. The service's engines are represented by the backend they are built on.
- Configuration.Atoi: the error text writes the input between plain double quotes, where Go's `strconv.Quote` would also escape special characters.
