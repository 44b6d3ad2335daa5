/**
 * The recommender: suggested actions for one product and pattern-based
 * recommendations for a tenant (services/ai/recommenders/recommender.go).
 */
module Recommender {
  import opened Results
  import opened Records
  import opened Stats
  import opened Tally
  import opened Ranking
  import opened TimeFrames
  import opened Insights
  import opened Recommendations
  import opened Patterns
  import opened Providers

  /** A database and a chat client. */
  datatype Recommender = Recommender(Db: Database, Chat: Chat)

  // ----- Database queries -----

  /** `First(&product, id)`: the first stored product with that id, or the zero product when there is none. */
  function FindProduct(products: seq<Product>, id: string): (p: Product)
    ensures (exists q :: q in products && q.Id == id) ==> p in products && p.Id == id
    ensures (forall q :: q in products ==> q.Id != id) ==> p == Product("", "")
  {
    if |products| == 0 then Product("", "")
    else if products[0].Id == id then products[0]
    else
      var p := FindProduct(products[1..], id);
      assert p in products[1..] ==> p in products;
      p
  }

  /** The reviews of a product, in stored order. */
  function ProductReviews(rs: seq<Review>, productID: string): (r: seq<Review>)
    ensures forall x :: x in r <==> x in rs && x.ProductId == productID
    decreases |rs|
  {
    if |rs| == 0 then []
    else
      var x := rs[|rs| - 1];
      assert rs == rs[..|rs| - 1] + [x];
      ProductReviews(rs[..|rs| - 1], productID) + (if x.ProductId == productID then [x] else [])
  }

  /** The events of a product, in stored order. */
  function ProductProofs(ps: seq<SocialProof>, productID: string): (r: seq<SocialProof>)
    ensures forall x :: x in r <==> x in ps && x.ProductId == productID
    decreases |ps|
  {
    if |ps| == 0 then []
    else
      var x := ps[|ps| - 1];
      assert ps == ps[..|ps| - 1] + [x];
      ProductProofs(ps[..|ps| - 1], productID) + (if x.ProductId == productID then [x] else [])
  }

  /** The events of a tenant, in stored order. */
  function TenantProofs(ps: seq<SocialProof>, tenantID: string): (r: seq<SocialProof>)
    ensures forall x :: x in r <==> x in ps && x.TenantId == tenantID
    decreases |ps|
  {
    if |ps| == 0 then []
    else
      var x := ps[|ps| - 1];
      assert ps == ps[..|ps| - 1] + [x];
      TenantProofs(ps[..|ps| - 1], tenantID) + (if x.TenantId == tenantID then [x] else [])
  }

  /** An event of high engagement: its stored engagement rate is above 0.7. */
  predicate HighEngagement(p: SocialProof)
  {
    p.Performance.EngagementRate > 0.7
  }

  /** The tenant's events of high engagement, in stored order. */
  function HighEngagementProofs(ps: seq<SocialProof>, tenantID: string): (r: seq<SocialProof>)
    ensures forall x :: x in r <==> x in ps && x.TenantId == tenantID && HighEngagement(x)
    decreases |ps|
  {
    if |ps| == 0 then []
    else
      var x := ps[|ps| - 1];
      assert ps == ps[..|ps| - 1] + [x];
      HighEngagementProofs(ps[..|ps| - 1], tenantID) + (if x.TenantId == tenantID && HighEngagement(x) then [x] else [])
  }

  // ----- The queries as issued: their errors are not checked -----

  /** `First(&product, id)`: the zero product when the query fails. */
  function FetchProduct(db: Database, productID: string): (p: Product)
    ensures ProductQuery(productID) !in db.Faults && (exists q :: q in db.Products && q.Id == productID) ==>
      p in db.Products && p.Id == productID
    ensures ProductQuery(productID) in db.Faults || (forall q :: q in db.Products ==> q.Id != productID) ==>
      p == Product("", "")
  {
    if ProductQuery(productID) in db.Faults then Product("", "") else FindProduct(db.Products, productID)
  }

  /** The product's reviews as fetched: none when the query fails. */
  function FetchProductReviews(db: Database, productID: string): (r: seq<Review>)
    ensures forall x :: x in r <==> ProductReviewsQuery(productID) !in db.Faults && x in db.Reviews && x.ProductId == productID
  {
    if ProductReviewsQuery(productID) in db.Faults then [] else ProductReviews(db.Reviews, productID)
  }

  /** The product's events as fetched: none when the query fails. */
  function FetchProductProofs(db: Database, productID: string): (r: seq<SocialProof>)
    ensures forall x :: x in r <==> ProductProofsQuery(productID) !in db.Faults && x in db.Proofs && x.ProductId == productID
  {
    if ProductProofsQuery(productID) in db.Faults then [] else ProductProofs(db.Proofs, productID)
  }

  /** The tenant's events of high engagement as fetched: none when the query fails. */
  function FetchHighEngagement(db: Database, tenantID: string): (r: seq<SocialProof>)
    ensures forall x :: x in r <==>
      HighEngagementQuery(tenantID) !in db.Faults && x in db.Proofs && x.TenantId == tenantID && HighEngagement(x)
  {
    if HighEngagementQuery(tenantID) in db.Faults then [] else HighEngagementProofs(db.Proofs, tenantID)
  }

  /** All the tenant's events as fetched for the placement pattern: none when the query fails. */
  function FetchTenantProofs(db: Database, tenantID: string): (r: seq<SocialProof>)
    ensures forall x :: x in r <==> TenantProofsQuery(tenantID) !in db.Faults && x in db.Proofs && x.TenantId == tenantID
  {
    if TenantProofsQuery(tenantID) in db.Faults then [] else TenantProofs(db.Proofs, tenantID)
  }

  // ----- GenerateActions -----

  /** The actions suggested when the chat call fails. */
  const FallbackActions: seq<string> := ["Highlight positive reviews", "Add customer photos", "Display purchase notifications"]

  /**
   * The question asked for a product: its name, its mean rating, its review
   * count and its engagement rate over the records that have views.
   */
  function ActionsPromptFor(db: Database, productID: string): Prompt
  {
    var reviews := FetchProductReviews(db, productID);
    var proofs := FetchProductProofs(db, productID);
    ActionsPrompt(FetchProduct(db, productID).Name, Mean(reviews, RatingOf), |reviews|,
                  OverallEngagement(reviews, proofs))
  }

  /**
   * The actions for a product: the items of the chat reply to the product's
   * insights, or the three fallback actions when the call fails. No action is empty.
   */
  method GenerateActions(r: Recommender, productID: string) returns (actions: seq<string>)
    ensures r.Chat(ActionsPromptFor(r.Db, productID)).Err? ==> actions == FallbackActions
    ensures r.Chat(ActionsPromptFor(r.Db, productID)).Ok? ==>
      actions == Items(r.Chat(ActionsPromptFor(r.Db, productID)).value)
    ensures forall i :: 0 <= i < |actions| ==> actions[i] != ""
  {
    var product := FetchProduct(r.Db, productID);
    var reviews := FetchProductReviews(r.Db, productID);
    var proofs := FetchProductProofs(r.Db, productID);
    var insights := GenerateProductInsights(product, reviews, proofs);
    var prompt := ActionsPrompt(product.Name, insights.AverageRating, |reviews|, insights.EngagementRate);
    var resp := r.Chat(prompt);
    if resp.Err? {
      return FallbackActions;
    }
    actions := ParseRecommendations(resp.value);
  }

  /**
   * When the three product queries fail the prompt describes the zero product:
   * no name, rating 0, no reviews and engagement 0.
   */
  lemma FailedProductQueries(db: Database, productID: string)
    requires ProductQuery(productID) in db.Faults
    requires ProductReviewsQuery(productID) in db.Faults && ProductProofsQuery(productID) in db.Faults
    ensures ActionsPromptFor(db, productID) == ActionsPrompt("", 0.0, 0, 0.0)
  {
    assert FetchProductReviews(db, productID) == [];
    assert FetchProductProofs(db, productID) == [];
    OverallEngagementNoViews([], []);
  }

  // ----- Pattern queries -----

  /** Recency as a score: later events score higher. */
  function Recency(p: SocialProof): real { p.CreatedAt as real }

  /**
   * `ORDER BY created_at DESC LIMIT k`: recent holds k of the events (all of them
   * when there are fewer), newest first, and none left out is newer than one kept.
   */
  predicate Newest(recent: seq<SocialProof>, all: seq<SocialProof>, k: nat)
  {
    |recent| == Min(k, |all|) && multiset(recent) <= multiset(all) &&
    (forall i, j :: 0 <= i < j < |recent| ==> recent[i].CreatedAt >= recent[j].CreatedAt) &&
    (forall p, i :: p in multiset(all) - multiset(recent) && 0 <= i < |recent| ==> p.CreatedAt <= recent[i].CreatedAt)
  }

  /** The content pattern of the tenant's events of high engagement, as fetched. */
  method ContentPattern(r: Recommender, tenantID: string) returns (pattern: Pattern)
    ensures pattern == Detected("content", ByMediaType, FetchHighEngagement(r.Db, tenantID))
  {
    var proofs := FetchHighEngagement(r.Db, tenantID);
    pattern := AnalyzeContentPattern(proofs);
  }

  /** The tenant's events as the timing query sees them: none when it fails. */
  function RecentCandidates(db: Database, tenantID: string): (r: seq<SocialProof>)
    ensures forall x :: x in r <==> RecentProofsQuery(tenantID) !in db.Faults && x in db.Proofs && x.TenantId == tenantID
  {
    if RecentProofsQuery(tenantID) in db.Faults then [] else TenantProofs(db.Proofs, tenantID)
  }

  /** The timing pattern of the tenant's 1000 newest events, as fetched. */
  method TimingPattern(r: Recommender, tenantID: string) returns (pattern: Pattern)
    ensures exists recent ::
      Newest(recent, RecentCandidates(r.Db, tenantID), 1000) && pattern == Detected("timing", ByHour, recent)
  {
    var all := RecentCandidates(r.Db, tenantID);
    var proofs := TopBy(all, Recency, 1000);
    forall i, j | 0 <= i < j < |proofs| ensures proofs[i].CreatedAt >= proofs[j].CreatedAt {
      assert Recency(proofs[i]) >= Recency(proofs[j]);
    }
    forall p, i | p in multiset(all) - multiset(proofs) && 0 <= i < |proofs|
      ensures p.CreatedAt <= proofs[i].CreatedAt
    {
      assert Recency(p) <= Recency(proofs[i]);
    }
    pattern := AnalyzeTimingPattern(proofs);
    assert Newest(proofs, all, 1000);
  }

  /** The placement pattern of all the tenant's events, as fetched. */
  method PlacementPattern(r: Recommender, tenantID: string) returns (pattern: Pattern)
    ensures pattern == Detected("placement", ByType, FetchTenantProofs(r.Db, tenantID))
  {
    var proofs := FetchTenantProofs(r.Db, tenantID);
    pattern := AnalyzePlacementPattern(proofs);
  }

  /** The three patterns of a tenant, in the order content, timing, placement. */
  ghost predicate SuccessPatterns(db: Database, tenantID: string, patterns: seq<Pattern>)
  {
    |patterns| == 3 &&
    patterns[0] == Detected("content", ByMediaType, FetchHighEngagement(db, tenantID)) &&
    (exists recent :: Newest(recent, RecentCandidates(db, tenantID), 1000) &&
      patterns[1] == Detected("timing", ByHour, recent)) &&
    patterns[2] == Detected("placement", ByType, FetchTenantProofs(db, tenantID))
  }

  method AnalyzeSuccessPatterns(r: Recommender, tenantID: string) returns (patterns: seq<Pattern>)
    ensures SuccessPatterns(r.Db, tenantID, patterns)
  {
    patterns := [];
    var contentPattern := ContentPattern(r, tenantID);
    patterns := patterns + [contentPattern];
    var timingPattern := TimingPattern(r, tenantID);
    patterns := patterns + [timingPattern];
    var placementPattern := PlacementPattern(r, tenantID);
    patterns := patterns + [placementPattern];
  }

  /**
   * Every event behind the content pattern is above the 0.5 success threshold, so
   * a non-empty content pattern has success rate 1 and confidence at least 0.6.
   */
  lemma ContentPatternAllSuccessful(ps: seq<SocialProof>, tenantID: string)
    requires |HighEngagementProofs(ps, tenantID)| > 0
    ensures Detected("content", ByMediaType, HighEngagementProofs(ps, tenantID)).SuccessRate == 1.0
    ensures CalculateConfidence(|HighEngagementProofs(ps, tenantID)|, 1.0) >= 0.6
  {
    var high := HighEngagementProofs(ps, tenantID);
    forall i | 0 <= i < |high| ensures Successful(high[i]) {
      assert high[i] in high;
    }
    AllSuccessfulRate(high);
  }

  /** The timing pattern never looks at more than 1000 events, and at none when its query fails. */
  lemma TimingSampleBounded(db: Database, tenantID: string, patterns: seq<Pattern>)
    requires SuccessPatterns(db, tenantID, patterns)
    ensures RecentProofsQuery(tenantID) !in db.Faults ==>
      patterns[1].SampleSize == Min(1000, |TenantProofs(db.Proofs, tenantID)|) <= 1000
    ensures RecentProofsQuery(tenantID) in db.Faults ==> patterns[1].SampleSize == 0
  {
    var recent :| Newest(recent, RecentCandidates(db, tenantID), 1000) &&
      patterns[1] == Detected("timing", ByHour, recent);
  }

  // ----- GenerateRecommendations -----

  /** Every success pattern has a rate in [0, 1], so the confidence computed from it is in [0, 1]. */
  lemma PatternConfidenceBounds(db: Database, tenantID: string, patterns: seq<Pattern>)
    requires SuccessPatterns(db, tenantID, patterns)
    ensures 0.0 <= CalculateConfidence(patterns[0].SampleSize, patterns[0].SuccessRate) <= 1.0
    ensures 0.0 <= CalculateConfidence(patterns[1].SampleSize, patterns[1].SuccessRate) <= 1.0
    ensures 0.0 <= CalculateConfidence(patterns[2].SampleSize, patterns[2].SuccessRate) <= 1.0
  {
    var recent :| Newest(recent, RecentCandidates(db, tenantID), 1000) &&
      patterns[1] == Detected("timing", ByHour, recent);
    assert patterns[0].SuccessRate == Rate(FetchHighEngagement(db, tenantID));
    assert patterns[1].SuccessRate == Rate(recent);
    assert patterns[2].SuccessRate == Rate(FetchTenantProofs(db, tenantID));
    ConfidenceBounds(patterns[0].SampleSize, patterns[0].SuccessRate);
    ConfidenceBounds(patterns[1].SampleSize, patterns[1].SuccessRate);
    ConfidenceBounds(patterns[2].SampleSize, patterns[2].SuccessRate);
  }

  /** A stored recommendation: tenant, pattern kind, suggestion and confidence. */
  datatype AIRecommendation = AIRecommendation(TenantId: string, Type: string, Suggestion: string, Confidence: real)

  /** rec is the tenant's recommendation for pattern p: its kind, a sentence p recommends and p's confidence. */
  ghost predicate Describes(rec: AIRecommendation, p: Pattern, tenantID: string)
  {
    rec.TenantId == tenantID && rec.Type == p.Type && Recommends(p, rec.Suggestion) &&
    rec.Confidence == CalculateConfidence(p.SampleSize, p.SuccessRate)
  }

  /** The loop over the patterns: one recommendation per pattern, in pattern order. */
  method RecommendAll(patterns: seq<Pattern>, tenantID: string) returns (recommendations: seq<AIRecommendation>)
    ensures |recommendations| == |patterns|
    ensures forall i :: 0 <= i < |patterns| ==> Describes(recommendations[i], patterns[i], tenantID)
  {
    recommendations := [];
    for n := 0 to |patterns|
      invariant |recommendations| == n
      invariant forall i :: 0 <= i < n ==> Describes(recommendations[i], patterns[i], tenantID)
    {
      var pattern := patterns[n];
      var confidence := CalculateConfidence(pattern.SampleSize, pattern.SuccessRate);
      var suggestion := GenerateRecommendation(pattern);
      var recommendation := AIRecommendation(tenantID, pattern.Type, suggestion, confidence);
      assert Describes(recommendation, patterns[n], tenantID);
      recommendations := recommendations + [recommendation];
    }
  }

  /**
   * Never fails: one recommendation per pattern, in the order content, timing,
   * placement, each with a confidence in [0, 1]; a pattern whose query failed
   * gets its fallback sentence with confidence 0.
   */
  method GenerateRecommendations(r: Recommender, tenantID: string)
    returns (result: Result<seq<AIRecommendation>>)
    ensures result.Ok? && |result.value| == 3
    ensures exists patterns ::
      SuccessPatterns(r.Db, tenantID, patterns) && forall i :: 0 <= i < 3 ==> Describes(result.value[i], patterns[i], tenantID)
    ensures result.value[0].Type == "content" && result.value[1].Type == "timing" && result.value[2].Type == "placement"
    ensures forall i :: 0 <= i < 3 ==> 0.0 <= result.value[i].Confidence <= 1.0
    ensures HighEngagementQuery(tenantID) in r.Db.Faults ==>
      result.value[0].Suggestion == DiversifySentence && result.value[0].Confidence == 0.0
    ensures RecentProofsQuery(tenantID) in r.Db.Faults ==>
      result.value[1].Suggestion == DistributeSentence && result.value[1].Confidence == 0.0
    ensures TenantProofsQuery(tenantID) in r.Db.Faults ==>
      result.value[2].Suggestion == MixSentence && result.value[2].Confidence == 0.0
  {
    var patterns := AnalyzeSuccessPatterns(r, tenantID);
    var recommendations := RecommendAll(patterns, tenantID);
    PatternConfidenceBounds(r.Db, tenantID, patterns);
    assert Describes(recommendations[0], patterns[0], tenantID);
    assert Describes(recommendations[1], patterns[1], tenantID);
    assert Describes(recommendations[2], patterns[2], tenantID);
    forall i | 0 <= i < 3 ensures 0.0 <= recommendations[i].Confidence <= 1.0 {
      assert i == 0 || i == 1 || i == 2;
    }
    FailedPatternQueries(r.Db, tenantID, patterns, recommendations);
    result := Ok(recommendations);
  }

  /** A recommendation for a pattern over no events: the kind's fallback sentence, with confidence 0. */
  lemma NoEventsFallBack(kind: string, d: Dimension, rec: AIRecommendation, tenantID: string)
    requires Describes(rec, Detected(kind, d, []), tenantID)
    ensures kind == "content" ==> rec.Suggestion == DiversifySentence
    ensures kind == "timing" ==> rec.Suggestion == DistributeSentence
    ensures kind == "placement" ==> rec.Suggestion == MixSentence
    ensures rec.Confidence == 0.0
  {
    assert Histogram(Keys(d, [])) == map[];
  }

  /**
   * The pattern queries' errors are not checked: a failed one leaves no events
   * behind its pattern, so that pattern's recommendation is its fallback
   * sentence with confidence 0.
   */
  lemma FailedPatternQueries(db: Database, tenantID: string, patterns: seq<Pattern>, recs: seq<AIRecommendation>)
    requires SuccessPatterns(db, tenantID, patterns)
    requires |recs| == 3 && forall i :: 0 <= i < 3 ==> Describes(recs[i], patterns[i], tenantID)
    ensures HighEngagementQuery(tenantID) in db.Faults ==>
      recs[0].Suggestion == DiversifySentence && recs[0].Confidence == 0.0
    ensures RecentProofsQuery(tenantID) in db.Faults ==>
      recs[1].Suggestion == DistributeSentence && recs[1].Confidence == 0.0
    ensures TenantProofsQuery(tenantID) in db.Faults ==>
      recs[2].Suggestion == MixSentence && recs[2].Confidence == 0.0
  {
    if HighEngagementQuery(tenantID) in db.Faults {
      assert Describes(recs[0], patterns[0], tenantID);
      NoEventsFallBack("content", ByMediaType, recs[0], tenantID);
    }
    if RecentProofsQuery(tenantID) in db.Faults {
      var recent :| Newest(recent, RecentCandidates(db, tenantID), 1000) &&
        patterns[1] == Detected("timing", ByHour, recent);
      assert recent == [];
      assert Describes(recs[1], patterns[1], tenantID);
      NoEventsFallBack("timing", ByHour, recs[1], tenantID);
    }
    if TenantProofsQuery(tenantID) in db.Faults {
      assert Describes(recs[2], patterns[2], tenantID);
      NoEventsFallBack("placement", ByType, recs[2], tenantID);
    }
  }
}
