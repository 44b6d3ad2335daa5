/**
 * The per-product insight summary: mean rating, overall engagement over the
 * records that were seen, mean sentiment and the five most frequent keywords
 * (services/ai/utils/insights.go).
 */
module Insights {
  import opened Records
  import opened Stats
  import opened Tally
  import opened Ranking
  import opened Engagement

  datatype ProductInsightData = ProductInsightData(
    AverageRating: real,
    EngagementRate: real,
    SentimentScore: real,
    TopKeywords: seq<string>)

  // ----- Overall engagement: only records with views count -----

  /** The reviews with at least one view, in order. */
  function ViewedReviews(reviews: seq<Review>): seq<Review>
    decreases |reviews|
  {
    if |reviews| == 0 then []
    else
      var r := reviews[|reviews| - 1];
      ViewedReviews(reviews[..|reviews| - 1]) + (if r.Engagement.Views > 0 then [r] else [])
  }

  /** The events with at least one view, in order. */
  function ViewedProofs(proofs: seq<SocialProof>): seq<SocialProof>
    decreases |proofs|
  {
    if |proofs| == 0 then []
    else
      var p := proofs[|proofs| - 1];
      ViewedProofs(proofs[..|proofs| - 1]) + (if p.Performance.Views > 0 then [p] else [])
  }

  /** ViewedReviews keeps exactly the reviews with views, and every one when all have views. */
  lemma {:induction false} ViewedReviewsSpec(reviews: seq<Review>)
    ensures forall r :: r in ViewedReviews(reviews) <==> r in reviews && r.Engagement.Views > 0
    ensures (forall i :: 0 <= i < |reviews| ==> reviews[i].Engagement.Views > 0) ==> ViewedReviews(reviews) == reviews
    ensures (forall i :: 0 <= i < |reviews| ==> reviews[i].Engagement.Views == 0) ==> ViewedReviews(reviews) == []
    decreases |reviews|
  {
    if |reviews| > 0 {
      var init := reviews[..|reviews| - 1];
      assert reviews == init + [reviews[|reviews| - 1]];
      ViewedReviewsSpec(init);
    }
  }

  /** ViewedProofs keeps exactly the events with views, and every one when all have views. */
  lemma {:induction false} ViewedProofsSpec(proofs: seq<SocialProof>)
    ensures forall p :: p in ViewedProofs(proofs) <==> p in proofs && p.Performance.Views > 0
    ensures (forall i :: 0 <= i < |proofs| ==> proofs[i].Performance.Views > 0) ==> ViewedProofs(proofs) == proofs
    ensures (forall i :: 0 <= i < |proofs| ==> proofs[i].Performance.Views == 0) ==> ViewedProofs(proofs) == []
    decreases |proofs|
  {
    if |proofs| > 0 {
      var init := proofs[..|proofs| - 1];
      assert proofs == init + [proofs[|proofs| - 1]];
      ViewedProofsSpec(init);
    }
  }

  /** The mean engagement ratio over the reviews and events that have views; 0 when none has. */
  function OverallEngagement(reviews: seq<Review>, proofs: seq<SocialProof>): real
  {
    AverageEngagement(ViewedReviews(reviews), ViewedProofs(proofs))
  }

  /** One more review adds its ratio to the sum and one to the count when it has views, and nothing otherwise. */
  lemma SumViewedReviewsStep(reviews: seq<Review>, r: Review)
    ensures SumOf(ViewedReviews(reviews + [r]), ReviewEngagement) ==
      SumOf(ViewedReviews(reviews), ReviewEngagement) + (if r.Engagement.Views > 0 then ReviewEngagement(r) else 0.0)
    ensures |ViewedReviews(reviews + [r])| == |ViewedReviews(reviews)| + (if r.Engagement.Views > 0 then 1 else 0)
  {
    ViewedReviewsSnoc(reviews, r);
    if r.Engagement.Views > 0 {
      SumOfAppend(ViewedReviews(reviews), [r], ReviewEngagement);
      assert SumOf([r], ReviewEngagement) == ReviewEngagement(r) by { assert [r][..0] == []; }
    } else {
      assert ViewedReviews(reviews + [r]) == ViewedReviews(reviews);
    }
  }

  /** One more event adds its ratio to the sum and one to the count when it has views, and nothing otherwise. */
  lemma SumViewedProofsStep(proofs: seq<SocialProof>, p: SocialProof)
    ensures SumOf(ViewedProofs(proofs + [p]), ProofEngagement) ==
      SumOf(ViewedProofs(proofs), ProofEngagement) + (if p.Performance.Views > 0 then ProofEngagement(p) else 0.0)
    ensures |ViewedProofs(proofs + [p])| == |ViewedProofs(proofs)| + (if p.Performance.Views > 0 then 1 else 0)
  {
    ViewedProofsSnoc(proofs, p);
    if p.Performance.Views > 0 {
      SumOfAppend(ViewedProofs(proofs), [p], ProofEngagement);
      assert SumOf([p], ProofEngagement) == ProofEngagement(p) by { assert [p][..0] == []; }
    } else {
      assert ViewedProofs(proofs + [p]) == ViewedProofs(proofs);
    }
  }

  /** The review loop of the overall engagement: the sum of the ratios of the reviews with views, and their number. */
  method SumViewedReviews(reviews: seq<Review>) returns (totalEngagement: real, count: nat)
    ensures totalEngagement == SumOf(ViewedReviews(reviews), ReviewEngagement)
    ensures count == |ViewedReviews(reviews)|
  {
    totalEngagement, count := 0.0, 0;
    for n := 0 to |reviews|
      invariant totalEngagement == SumOf(ViewedReviews(reviews[..n]), ReviewEngagement)
      invariant count == |ViewedReviews(reviews[..n])|
    {
      var review := reviews[n];
      assert reviews[..n + 1] == reviews[..n] + [review];
      SumViewedReviewsStep(reviews[..n], review);
      if review.Engagement.Views > 0 {
        var engagement := (review.Engagement.Likes + review.Engagement.Shares) as real / review.Engagement.Views as real;
        totalEngagement := totalEngagement + engagement;
        count := count + 1;
      }
    }
    assert reviews[..|reviews|] == reviews;
  }

  /** The event loop of the overall engagement: the sum of the ratios of the events with views, and their number. */
  method SumViewedProofs(proofs: seq<SocialProof>) returns (totalEngagement: real, count: nat)
    ensures totalEngagement == SumOf(ViewedProofs(proofs), ProofEngagement)
    ensures count == |ViewedProofs(proofs)|
  {
    totalEngagement, count := 0.0, 0;
    for n := 0 to |proofs|
      invariant totalEngagement == SumOf(ViewedProofs(proofs[..n]), ProofEngagement)
      invariant count == |ViewedProofs(proofs[..n])|
    {
      var proof := proofs[n];
      assert proofs[..n + 1] == proofs[..n] + [proof];
      SumViewedProofsStep(proofs[..n], proof);
      if proof.Performance.Views > 0 {
        var engagement := proof.Performance.Conversions as real / proof.Performance.Views as real;
        totalEngagement := totalEngagement + engagement;
        count := count + 1;
      }
    }
    assert proofs[..|proofs|] == proofs;
  }

  method CalculateOverallEngagement(reviews: seq<Review>, proofs: seq<SocialProof>) returns (rate: real)
    ensures rate == OverallEngagement(reviews, proofs)
  {
    var reviewTotal, reviewCount := SumViewedReviews(reviews);
    var proofTotal, proofCount := SumViewedProofs(proofs);
    var count := reviewCount + proofCount;
    assert count == |ViewedReviews(reviews)| + |ViewedProofs(proofs)|;
    if count == 0 {
      return 0.0;
    }
    rate := (reviewTotal + proofTotal) / (count as real);
    assert rate == AverageEngagement(ViewedReviews(reviews), ViewedProofs(proofs));
  }

  /** With no record that has views, the overall engagement is 0. */
  lemma OverallEngagementNoViews(reviews: seq<Review>, proofs: seq<SocialProof>)
    requires forall i :: 0 <= i < |reviews| ==> reviews[i].Engagement.Views == 0
    requires forall i :: 0 <= i < |proofs| ==> proofs[i].Performance.Views == 0
    ensures OverallEngagement(reviews, proofs) == 0.0
  {
    ViewedReviewsSpec(reviews);
    ViewedProofsSpec(proofs);
  }

  /** A review without views is ignored: adding one does not move the overall engagement. */
  lemma OverallEngagementIgnoresUnviewed(reviews: seq<Review>, proofs: seq<SocialProof>, z: Review)
    requires z.Engagement.Views == 0
    ensures OverallEngagement(reviews + [z], proofs) == OverallEngagement(reviews, proofs)
  {
    ViewedReviewsSnoc(reviews, z);
    assert ViewedReviews(reviews) + [] == ViewedReviews(reviews);
  }

  lemma ViewedReviewsSnoc(reviews: seq<Review>, r: Review)
    ensures ViewedReviews(reviews + [r]) == ViewedReviews(reviews) + (if r.Engagement.Views > 0 then [r] else [])
  {
    assert (reviews + [r])[..|reviews + [r]| - 1] == reviews;
  }

  lemma ViewedProofsSnoc(proofs: seq<SocialProof>, p: SocialProof)
    ensures ViewedProofs(proofs + [p]) == ViewedProofs(proofs) + (if p.Performance.Views > 0 then [p] else [])
  {
    assert (proofs + [p])[..|proofs + [p]| - 1] == proofs;
  }

  /** When every record has views, overall and average engagement agree. */
  lemma OverallEngagementAllViewed(reviews: seq<Review>, proofs: seq<SocialProof>)
    requires forall i :: 0 <= i < |reviews| ==> reviews[i].Engagement.Views > 0
    requires forall i :: 0 <= i < |proofs| ==> proofs[i].Performance.Views > 0
    ensures OverallEngagement(reviews, proofs) == AverageEngagement(reviews, proofs)
  {
    ViewedReviewsSpec(reviews);
    ViewedProofsSpec(proofs);
  }

  /** Over plausible records the overall engagement lies in [0, 1]. */
  lemma OverallEngagementBounds(reviews: seq<Review>, proofs: seq<SocialProof>)
    requires forall i :: 0 <= i < |reviews| ==> PlausibleReview(reviews[i])
    requires forall i :: 0 <= i < |proofs| ==> PlausibleProof(proofs[i])
    ensures 0.0 <= OverallEngagement(reviews, proofs) <= 1.0
  {
    ViewedReviewsSpec(reviews);
    ViewedProofsSpec(proofs);
    var vr, vp := ViewedReviews(reviews), ViewedProofs(proofs);
    forall i | 0 <= i < |vr| ensures PlausibleReview(vr[i]) {
      assert vr[i] in vr;
    }
    forall i | 0 <= i < |vp| ensures PlausibleProof(vp[i]) {
      assert vp[i] in vp;
    }
    AverageEngagementBounds(vr, vp);
  }

  // ----- Sentiment -----

  /** The mean review sentiment; 0 for no reviews. */
  method CalculateOverallSentiment(reviews: seq<Review>) returns (score: real)
    ensures score == Mean(reviews, SentimentOf)
  {
    if |reviews| == 0 {
      return 0.0;
    }
    var totalSentiment := 0.0;
    for n := 0 to |reviews|
      invariant totalSentiment == SumOf(reviews[..n], SentimentOf)
    {
      assert reviews[..n + 1][..n] == reviews[..n];
      totalSentiment := totalSentiment + reviews[n].Sentiment;
    }
    assert reviews[..|reviews|] == reviews;
    score := totalSentiment / (|reviews| as real);
  }

  // ----- Top keywords -----

  /** Every keyword of every review, review by review, in order. */
  function AllKeywords(reviews: seq<Review>): seq<string>
    decreases |reviews|
  {
    if |reviews| == 0 then [] else AllKeywords(reviews[..|reviews| - 1]) + reviews[|reviews| - 1].Keywords
  }

  /** A word is among all the keywords exactly when some review lists it. */
  lemma {:induction false} AllKeywordsSpec(reviews: seq<Review>)
    ensures forall w :: w in AllKeywords(reviews) <==> exists i :: 0 <= i < |reviews| && w in reviews[i].Keywords
    decreases |reviews|
  {
    if |reviews| > 0 {
      var init := reviews[..|reviews| - 1];
      AllKeywordsSpec(init);
      forall w | (exists i :: 0 <= i < |reviews| && w in reviews[i].Keywords) ensures w in AllKeywords(reviews) {
        var i :| 0 <= i < |reviews| && w in reviews[i].Keywords;
        if i < |reviews| - 1 {
          assert init[i] == reviews[i];
        }
      }
    }
  }

  lemma AllKeywordsSnoc(reviews: seq<Review>, r: Review)
    ensures AllKeywords(reviews + [r]) == AllKeywords(reviews) + r.Keywords
  {
    assert (reviews + [r])[..|reviews + [r]| - 1] == reviews;
  }

  /** How many times w is listed over all the reviews. */
  function Occurrences(reviews: seq<Review>, w: string): nat
  {
    multiset(AllKeywords(reviews))[w]
  }

  /** The `keywordFreq[keyword]++` loops: one increment per listed keyword, review by review. */
  method CountKeywords(reviews: seq<Review>) returns (keywordFreq: map<string, nat>)
    ensures keywordFreq == Histogram(AllKeywords(reviews))
  {
    keywordFreq := map[];
    for n := 0 to |reviews|
      invariant keywordFreq == Histogram(AllKeywords(reviews[..n]))
    {
      AllKeywordsPrefix(reviews, n);
      keywordFreq := CountInto(keywordFreq, AllKeywords(reviews[..n]), reviews[n].Keywords);
    }
    assert reviews[..|reviews|] == reviews;
  }

  lemma AllKeywordsPrefix(reviews: seq<Review>, n: nat)
    requires n < |reviews|
    ensures AllKeywords(reviews[..n + 1]) == AllKeywords(reviews[..n]) + reviews[n].Keywords
  {
    assert reviews[..n + 1][..n] == reviews[..n];
  }

  /**
   * The five most listed keywords, most listed first: distinct, each listed by
   * some review, and none left out listed more often than one kept.
   */
  method ExtractTopKeywords(reviews: seq<Review>) returns (top: seq<string>)
    ensures |top| <= 5
    ensures |top| == Min(5, |set w | w in AllKeywords(reviews)|)
    ensures forall i :: 0 <= i < |top| ==> exists j :: 0 <= j < |reviews| && top[i] in reviews[j].Keywords
    ensures forall i, j :: 0 <= i < j < |top| ==> top[i] != top[j]
    ensures forall i, j :: 0 <= i < j < |top| ==> Occurrences(reviews, top[i]) >= Occurrences(reviews, top[j])
    ensures forall w, i :: w in AllKeywords(reviews) && w !in top && 0 <= i < |top| ==>
      Occurrences(reviews, w) <= Occurrences(reviews, top[i])
  {
    var keywordFreq := CountKeywords(reviews);
    HistogramSpec(AllKeywords(reviews));
    assert keywordFreq.Keys == set w | w in AllKeywords(reviews);
    top := TopKeys(keywordFreq, 5);
    AllKeywordsSpec(reviews);
  }

  /** The insight summary of one product's reviews and social-proof events. */
  method GenerateProductInsights(product: Product, reviews: seq<Review>, proofs: seq<SocialProof>)
    returns (insights: ProductInsightData)
    ensures insights.AverageRating == Mean(reviews, RatingOf)
    ensures insights.EngagementRate == OverallEngagement(reviews, proofs)
    ensures insights.SentimentScore == Mean(reviews, SentimentOf)
    ensures |insights.TopKeywords| <= 5
    ensures |insights.TopKeywords| == Min(5, |set w | w in AllKeywords(reviews)|)
    ensures forall i :: 0 <= i < |insights.TopKeywords| ==>
      exists j :: 0 <= j < |reviews| && insights.TopKeywords[i] in reviews[j].Keywords
    ensures forall i, j :: 0 <= i < j < |insights.TopKeywords| ==> insights.TopKeywords[i] != insights.TopKeywords[j]
    ensures forall i, j :: 0 <= i < j < |insights.TopKeywords| ==>
      Occurrences(reviews, insights.TopKeywords[i]) >= Occurrences(reviews, insights.TopKeywords[j])
    ensures forall w, i :: w in AllKeywords(reviews) && w !in insights.TopKeywords && 0 <= i < |insights.TopKeywords| ==>
      Occurrences(reviews, w) <= Occurrences(reviews, insights.TopKeywords[i])
  {
    insights := ProductInsightData(0.0, 0.0, 0.0, []);

    var totalRating := 0.0;
    for n := 0 to |reviews|
      invariant totalRating == SumOf(reviews[..n], RatingOf)
    {
      assert reviews[..n + 1][..n] == reviews[..n];
      totalRating := totalRating + reviews[n].Rating as real;
    }
    assert reviews[..|reviews|] == reviews;
    if |reviews| > 0 {
      insights := insights.(AverageRating := totalRating / (|reviews| as real));
    }

    var engagementRate := CalculateOverallEngagement(reviews, proofs);
    insights := insights.(EngagementRate := engagementRate);
    var sentimentScore := CalculateOverallSentiment(reviews);
    insights := insights.(SentimentScore := sentimentScore);
    var topKeywords := ExtractTopKeywords(reviews);
    insights := insights.(TopKeywords := topKeywords);
  }
}
