/**
 * The content analyzer: free-form queries, sentiment trends, keyword ranking,
 * engagement scoring and the weekly trend report
 * (services/ai/analyzers/content_analyzer.go).
 */
module ContentAnalysis {
  import opened Results
  import opened Records
  import opened Stats
  import opened Tally
  import opened Ranking
  import opened TimeFrames
  import opened Engagement
  import opened Recommendations
  import opened Providers
  import opened SentimentAnalysis
  import opened Harvesting

  /** A chat client of its own and a sentiment analyzer. */
  datatype ContentAnalyzer = ContentAnalyzer(Chat: Chat, Sentiment: SentimentAnalyzer)

  // ----- ProcessQuery -----

  /** The reply to a query, or the error of the call; the tenant plays no part in it. */
  function ProcessQuery(a: ContentAnalyzer, query: string, tenantID: string): (r: Result<string>)
  {
    match a.Chat(QueryPrompt(query))
    case Err(e) => Err(e)
    case Ok(reply) => Ok(reply)
  }

  /** The answer is the client's answer to the query, whichever tenant asks. */
  lemma ProcessQuerySpec(a: ContentAnalyzer, query: string, t1: string, t2: string)
    ensures ProcessQuery(a, query, t1) == a.Chat(QueryPrompt(query))
    ensures ProcessQuery(a, query, t1) == ProcessQuery(a, query, t2)
  {
  }

  // ----- AnalyzeSentimentTrend -----

  /**
   * One score per review, or no scores at all when any review's analysis fails:
   * the error is swallowed.
   */
  method AnalyzeSentimentTrend(a: ContentAnalyzer, reviews: seq<Review>) returns (scores: seq<real>)
    ensures BatchSentiment(a.Sentiment, reviews).Ok? ==> scores == BatchSentiment(a.Sentiment, reviews).value
    ensures BatchSentiment(a.Sentiment, reviews).Err? ==> scores == []
    ensures |reviews| > 0 ==>
      (|scores| == |reviews| <==> forall i :: 0 <= i < |reviews| ==> AnalyzeSentiment(a.Sentiment, reviews[i].Content).Ok?)
    ensures forall i :: 0 <= i < |scores| ==>
      i < |reviews| && AnalyzeSentiment(a.Sentiment, reviews[i].Content).Ok? && scores[i] == AnalyzeSentiment(a.Sentiment, reviews[i].Content).value
  {
    var result, _ := BatchAnalyzeSentiment(a.Sentiment, reviews);
    BatchSentimentSpec(a.Sentiment, reviews);
    if result.Err? {
      return [];
    }
    scores := result.value;
  }

  // ----- ExtractKeywords -----

  /** Key-phrase extraction with this analyzer's sentiment analyzer, as an extractor. */
  function PhraseExtractor(sa: SentimentAnalyzer): Extractor
  {
    text => KeyPhrasesOf(sa, text)
  }

  /** The outer loop: phrases of every review counted, skipping reviews whose extraction fails. */
  method CountPhrases(a: ContentAnalyzer, reviews: seq<Review>) returns (keywordFreq: map<string, nat>)
    ensures keywordFreq == Histogram(Harvest(PhraseExtractor(a.Sentiment), reviews))
  {
    keywordFreq := map[];
    for n := 0 to |reviews|
      invariant keywordFreq == Histogram(Harvest(PhraseExtractor(a.Sentiment), reviews[..n]))
    {
      var review := reviews[n];
      ghost var before := Harvest(PhraseExtractor(a.Sentiment), reviews[..n]);
      assert reviews[..n + 1] == reviews[..n] + [review];
      var phrases := ExtractKeyPhrases(a.Sentiment, review.Content);
      if phrases.Err? {
        HarvestSkipsFailures(PhraseExtractor(a.Sentiment), reviews[..n], review);
        continue;
      }
      HarvestSnoc(PhraseExtractor(a.Sentiment), reviews[..n], review);
      assert Drawn(PhraseExtractor(a.Sentiment), review.Content) == phrases.value;
      keywordFreq := CountInto(keywordFreq, before, phrases.value);
    }
    assert reviews[..|reviews|] == reviews;
  }

  /**
   * The ten most extracted phrases, most extracted first: distinct, each extracted
   * from some review, and none left out extracted more often than one kept.
   */
  method ExtractKeywords(a: ContentAnalyzer, reviews: seq<Review>) returns (result: seq<string>)
    ensures |result| == Min(10, |set w | w in Harvest(PhraseExtractor(a.Sentiment), reviews)|)
    ensures forall i :: 0 <= i < |result| ==>
      exists j :: 0 <= j < |reviews| && KeyPhrasesOf(a.Sentiment, reviews[j].Content).Ok? &&
        result[i] in KeyPhrasesOf(a.Sentiment, reviews[j].Content).value
    ensures forall i, j :: 0 <= i < j < |result| ==> result[i] != result[j]
    ensures forall i, j :: 0 <= i < j < |result| ==>
      Mentions(PhraseExtractor(a.Sentiment), reviews, result[i]) >= Mentions(PhraseExtractor(a.Sentiment), reviews, result[j])
    ensures forall w, i :: w in Harvest(PhraseExtractor(a.Sentiment), reviews) && w !in result && 0 <= i < |result| ==>
      Mentions(PhraseExtractor(a.Sentiment), reviews, w) <= Mentions(PhraseExtractor(a.Sentiment), reviews, result[i])
  {
    var keywordFreq := CountPhrases(a, reviews);
    HistogramSpec(Harvest(PhraseExtractor(a.Sentiment), reviews));
    assert keywordFreq.Keys == set w | w in Harvest(PhraseExtractor(a.Sentiment), reviews);
    result := TopKeys(keywordFreq, 10);
    HarvestSpec(PhraseExtractor(a.Sentiment), reviews);
  }

  // ----- CalculateEngagementScore -----

  /** The mean ratio over all reviews and events, or 0 when there is none. */
  method CalculateEngagementScore(a: ContentAnalyzer, reviews: seq<Review>, proofs: seq<SocialProof>) returns (score: real)
    ensures score == AverageEngagement(reviews, proofs)
    ensures |reviews| + |proofs| == 0 ==> score == 0.0
  {
    if |reviews| == 0 && |proofs| == 0 {
      return 0.0;
    }
    var totalScore := 0.0;
    for n := 0 to |reviews|
      invariant totalScore == SumOf(reviews[..n], ReviewEngagement)
    {
      assert reviews[..n + 1][..n] == reviews[..n];
      totalScore := totalScore + ReviewEngagement(reviews[n]);
    }
    assert reviews[..|reviews|] == reviews;
    for n := 0 to |proofs|
      invariant totalScore == SumOf(reviews, ReviewEngagement) + SumOf(proofs[..n], ProofEngagement)
    {
      assert proofs[..n + 1][..n] == proofs[..n];
      totalScore := totalScore + ProofEngagement(proofs[n]);
    }
    assert proofs[..|proofs|] == proofs;
    score := totalScore / ((|reviews| + |proofs|) as real);
  }

  // ----- AnalyzeTrends -----

  /** The trend report: per-frame sentiment and engagement, the top performers and the time of analysis. */
  datatype ContentTrends = ContentTrends(
    SentimentTrend: seq<real>,
    EngagementTrend: seq<real>,
    TopPerformers: seq<Performer>,
    AnalysisTime: Timestamp)

  /** The loop over the frames: the mean sentiment and the mean engagement of each frame, in frame order. */
  method FrameTrends(timeFrames: seq<TimeFrame>) returns (sentimentTrend: seq<real>, engagementTrend: seq<real>)
    ensures |sentimentTrend| == |timeFrames| && |engagementTrend| == |timeFrames|
    ensures forall i :: 0 <= i < |timeFrames| ==> sentimentTrend[i] == Mean(timeFrames[i].Reviews, SentimentOf)
    ensures forall i :: 0 <= i < |timeFrames| ==>
      engagementTrend[i] == AverageEngagement(timeFrames[i].Reviews, timeFrames[i].Proofs)
  {
    var sentiments := new real[|timeFrames|];
    var engagements := new real[|timeFrames|];
    for i := 0 to |timeFrames|
      invariant forall j :: 0 <= j < i ==> sentiments[j] == Mean(timeFrames[j].Reviews, SentimentOf)
      invariant forall j :: 0 <= j < i ==> engagements[j] == AverageEngagement(timeFrames[j].Reviews, timeFrames[j].Proofs)
    {
      var sentiment := CalculateAverageSentiment(timeFrames[i].Reviews);
      sentiments[i] := sentiment;
      var engagement := CalculateAverageEngagement(timeFrames[i].Reviews, timeFrames[i].Proofs);
      engagements[i] := engagement;
    }
    sentimentTrend, engagementTrend := sentiments[..], engagements[..];
  }

  /**
   * Never fails. Entry i of each trend is the mean stored sentiment, and the mean
   * engagement ratio, of the records that fall in weekly frame i before now.
   */
  method AnalyzeTrends(a: ContentAnalyzer, now: Timestamp, reviews: seq<Review>, proofs: seq<SocialProof>)
    returns (r: Result<ContentTrends>)
    ensures r.Ok?
    ensures |r.value.SentimentTrend| == FrameCount && |r.value.EngagementTrend| == FrameCount
    ensures forall i :: 0 <= i < FrameCount ==>
      r.value.SentimentTrend[i] == Mean(ReviewsInFrame(reviews, now, i), SentimentOf)
    ensures forall i :: 0 <= i < FrameCount ==>
      r.value.EngagementTrend[i] == AverageEngagement(ReviewsInFrame(reviews, now, i), ProofsInFrame(proofs, now, i))
    ensures |r.value.TopPerformers| == Min(10, |reviews| + |proofs|)
    ensures forall i, j :: 0 <= i < j < |r.value.TopPerformers| ==>
      r.value.TopPerformers[i].Score >= r.value.TopPerformers[j].Score
    ensures multiset(r.value.TopPerformers) <= multiset(Performers(reviews, proofs))
    ensures forall p, i ::
      p in multiset(Performers(reviews, proofs)) - multiset(r.value.TopPerformers) && 0 <= i < |r.value.TopPerformers| ==>
      p.Score <= r.value.TopPerformers[i].Score
    ensures r.value.AnalysisTime == now
  {
    var timeFrames := GroupByTimeFrames(now, reviews, proofs);
    var sentimentTrend, engagementTrend := FrameTrends(timeFrames);
    var topPerformers := FindTopPerformers(reviews, proofs);
    r := Ok(ContentTrends(sentimentTrend, engagementTrend, topPerformers, now));
  }

  /** Over plausible records every entry of the engagement trend is a ratio in [0, 1]. */
  lemma EngagementTrendBounds(reviews: seq<Review>, proofs: seq<SocialProof>, now: Timestamp, i: nat)
    requires forall k :: 0 <= k < |reviews| ==> PlausibleReview(reviews[k])
    requires forall k :: 0 <= k < |proofs| ==> PlausibleProof(proofs[k])
    ensures 0.0 <= AverageEngagement(ReviewsInFrame(reviews, now, i), ProofsInFrame(proofs, now, i)) <= 1.0
  {
    var rs := ReviewsInFrame(reviews, now, i);
    var ps := ProofsInFrame(proofs, now, i);
    ReviewsInFrameSpec(reviews, now, i);
    ProofsInFrameSpec(proofs, now, i);
    forall k | 0 <= k < |rs| ensures PlausibleReview(rs[k]) {
      assert rs[k] in rs;
    }
    forall k | 0 <= k < |ps| ensures PlausibleProof(ps[k]) {
      assert ps[k] in ps;
    }
    AverageEngagementBounds(rs, ps);
  }
}
