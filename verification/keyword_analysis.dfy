/**
 * The keyword analyzer: keyword extraction through a provider and the weekly
 * keyword-frequency trend (services/ai/analyzers/keyword_analyzer.go).
 */
module KeywordAnalysis {
  import opened Results
  import opened Records
  import opened Strings
  import opened Tally
  import opened TimeFrames
  import opened Parsing
  import opened Providers
  import opened Harvesting

  datatype KeywordAnalyzer = KeywordAnalyzer(Provider: Provider)

  // ----- ExtractKeywords -----

  /** The keywords of the provider's answer, or the error of the call. */
  function ExtractKeywords(ka: KeywordAnalyzer, text: string): Result<seq<string>>
  {
    match ka.Provider.ProcessQuery(KeywordsPrompt(text))
    case Err(e) => Err(e)
    case Ok(response) => Ok(Keywords(response))
  }

  /**
   * Extraction fails exactly when the call does, with its error; otherwise the
   * keywords are the parsed answer: non-empty, trimmed, free of commas, and no
   * more of them than the answer has comma-separated pieces.
   */
  lemma ExtractKeywordsSpec(ka: KeywordAnalyzer, text: string)
    ensures ExtractKeywords(ka, text).Err? <==> ka.Provider.ProcessQuery(KeywordsPrompt(text)).Err?
    ensures ExtractKeywords(ka, text).Err? ==>
      ExtractKeywords(ka, text).error == ka.Provider.ProcessQuery(KeywordsPrompt(text)).error
    ensures ExtractKeywords(ka, text).Ok? ==>
      var response := ka.Provider.ProcessQuery(KeywordsPrompt(text)).value;
      var keywords := ExtractKeywords(ka, text).value;
      keywords == Keywords(response) &&
      |keywords| <= multiset(response)[','] + 1 &&
      forall i :: 0 <= i < |keywords| ==>
        keywords[i] != "" && ',' !in keywords[i] &&
        !IsSpace(keywords[i][0]) && !IsSpace(keywords[i][|keywords[i]| - 1])
  {
    var call := ka.Provider.ProcessQuery(KeywordsPrompt(text));
    if call.Ok? {
      KeywordsShape(call.value);
      SplitCount(call.value, ',');
    }
  }

  /** Keyword extraction with this analyzer, as an extractor. */
  function KeywordExtractor(ka: KeywordAnalyzer): Extractor
  {
    text => ExtractKeywords(ka, text)
  }

  // ----- AnalyzeTrends -----

  /** The frequency of every keyword extracted from a frame's reviews, skipping the reviews whose extraction fails. */
  method CountKeywords(ka: KeywordAnalyzer, reviews: seq<Review>) returns (keywordFreq: map<string, nat>)
    ensures keywordFreq == Histogram(Harvest(KeywordExtractor(ka), reviews))
  {
    keywordFreq := map[];
    for n := 0 to |reviews|
      invariant keywordFreq == Histogram(Harvest(KeywordExtractor(ka), reviews[..n]))
    {
      var review := reviews[n];
      ghost var before := Harvest(KeywordExtractor(ka), reviews[..n]);
      assert reviews[..n + 1] == reviews[..n] + [review];
      var keywords := ExtractKeywords(ka, review.Content);
      if keywords.Err? {
        HarvestSkipsFailures(KeywordExtractor(ka), reviews[..n], review);
        continue;
      }
      HarvestSnoc(KeywordExtractor(ka), reviews[..n], review);
      keywordFreq := CountInto(keywordFreq, before, keywords.value);
    }
    assert reviews[..|reviews|] == reviews;
  }

  /** One keyword histogram per weekly frame, with the frames themselves. */
  datatype KeywordTrends = KeywordTrends(Trends: seq<map<string, nat>>, Frames: seq<TimeFrame>)

  /** Frame k is the first whose review fetch fails. */
  predicate FirstReviewFetchFailure(db: Database, tenant: string, now: Timestamp, k: int)
  {
    0 <= k < FrameCount && FrameReviews(db, tenant, now, k).Err? &&
    forall i :: 0 <= i < k ==> FrameReviews(db, tenant, now, i).Ok?
  }

  /**
   * The keyword trend of the last twelve weeks. It fails exactly when a frame's
   * fetch fails, with the error of the first such frame; otherwise entry i counts
   * the keywords extracted from frame i's reviews.
   */
  method AnalyzeTrends(ka: KeywordAnalyzer, db: Database, tenantID: string, now: Timestamp)
    returns (r: Result<KeywordTrends>)
    ensures r.Ok? <==> forall i :: 0 <= i < FrameCount ==> FrameReviews(db, tenantID, now, i).Ok?
    ensures r.Err? ==>
      exists k :: FirstReviewFetchFailure(db, tenantID, now, k) && r.error == FrameReviews(db, tenantID, now, k).error
    ensures r.Ok? ==> |r.value.Trends| == FrameCount && |r.value.Frames| == FrameCount
    ensures r.Ok? ==> forall i :: 0 <= i < FrameCount ==>
      r.value.Trends[i] == Histogram(Harvest(KeywordExtractor(ka), FrameReviews(db, tenantID, now, i).value))
    ensures r.Ok? ==> forall i :: 0 <= i < FrameCount ==>
      r.value.Frames[i] == TimeFrame([], [], FrameStart(now, i), FrameEnd(now, i))
  {
    var timeFrames := GetTimeFrames(now);
    var trends := new map<string, nat>[|timeFrames|](_ => map[]);
    for i := 0 to |timeFrames|
      invariant forall j :: 0 <= j < i ==>
        FrameReviews(db, tenantID, now, j).Ok? && trends[j] == Histogram(Harvest(KeywordExtractor(ka), FrameReviews(db, tenantID, now, j).value))
    {
      var reviews := GetReviewsInTimeFrame(db, tenantID, timeFrames[i].Start, timeFrames[i].End);
      if reviews.Err? {
        assert FirstReviewFetchFailure(db, tenantID, now, i);
        return Err(reviews.error);
      }
      var keywordFreq := CountKeywords(ka, reviews.value);
      trends[i] := keywordFreq;
    }
    r := Ok(KeywordTrends(trends[..], timeFrames));
  }
}
