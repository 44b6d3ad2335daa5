/**
 * The engagement analyzer: the engagement of a review and event pair and the
 * weekly engagement trend (services/ai/analyzers/engagement_analyzer.go).
 */
module EngagementAnalysis {
  import opened Results
  import opened Records
  import opened Stats
  import opened TimeFrames
  import opened Engagement
  import opened Providers

  /** Holds a provider, which none of its operations calls. */
  datatype EngagementAnalyzer = EngagementAnalyzer(Provider: Provider)

  /**
   * The mean of the review's and the event's ratios: the average engagement of
   * the one-review, one-event collection, in [0, 1] for plausible records.
   */
  function AnalyzeEngagement(ea: EngagementAnalyzer, review: Review, proof: SocialProof): (score: real)
    ensures score == AverageEngagement([review], [proof])
    ensures PlausibleReview(review) && PlausibleProof(proof) ==> 0.0 <= score <= 1.0
    ensures review.Engagement.Views == 0 && proof.Performance.Views == 0 ==> score == 0.0
  {
    assert [review][..0] == [] && [proof][..0] == [];
    assert SumOf([review], ReviewEngagement) == ReviewEngagement(review);
    assert SumOf([proof], ProofEngagement) == ProofEngagement(proof);
    (ReviewEngagement(review) + ProofEngagement(proof)) / 2.0
  }

  /** One mean engagement per weekly frame, with the frames themselves. */
  datatype EngagementTrends = EngagementTrends(Trends: seq<real>, Frames: seq<TimeFrame>)

  /** Both fetches of frame i succeed. */
  predicate FetchedFrame(db: Database, tenant: string, now: Timestamp, i: int)
  {
    FrameReviews(db, tenant, now, i).Ok? && FrameProofs(db, tenant, now, i).Ok?
  }

  /**
   * Frame k is the first with a failing fetch, and err is the error reported for
   * it: the review fetch's when that fails, the event fetch's otherwise.
   */
  predicate FirstFetchFailure(db: Database, tenant: string, now: Timestamp, k: int, err: string)
  {
    0 <= k < FrameCount && (forall i :: 0 <= i < k ==> FetchedFrame(db, tenant, now, i)) &&
    if FrameReviews(db, tenant, now, k).Err? then err == FrameReviews(db, tenant, now, k).error
    else FrameProofs(db, tenant, now, k).Err? && err == FrameProofs(db, tenant, now, k).error
  }

  /**
   * The engagement trend of the last twelve weeks. It fails exactly when some
   * frame's fetch fails, reporting the first failure; otherwise entry i is the
   * average engagement of the tenant's reviews and events fetched for frame i.
   */
  method AnalyzeTrends(ea: EngagementAnalyzer, db: Database, tenantID: string, now: Timestamp)
    returns (r: Result<EngagementTrends>)
    ensures r.Ok? <==> forall i :: 0 <= i < FrameCount ==> FetchedFrame(db, tenantID, now, i)
    ensures r.Err? ==> exists k :: FirstFetchFailure(db, tenantID, now, k, r.error)
    ensures r.Ok? ==> |r.value.Trends| == FrameCount && |r.value.Frames| == FrameCount
    ensures r.Ok? ==> forall i :: 0 <= i < FrameCount ==>
      r.value.Trends[i] == AverageEngagement(
        ReviewsBetween(db.Reviews, tenantID, FrameStart(now, i), FrameEnd(now, i)),
        ProofsBetween(db.Proofs, tenantID, FrameStart(now, i), FrameEnd(now, i)))
    ensures r.Ok? ==> forall i :: 0 <= i < FrameCount ==>
      r.value.Frames[i] == TimeFrame([], [], FrameStart(now, i), FrameEnd(now, i))
  {
    var timeFrames := GetTimeFrames(now);
    var trends := new real[|timeFrames|];
    for i := 0 to |timeFrames|
      invariant forall j :: 0 <= j < i ==>
        FetchedFrame(db, tenantID, now, j) && trends[j] == AverageEngagement(FrameReviews(db, tenantID, now, j).value, FrameProofs(db, tenantID, now, j).value)
    {
      var reviews := GetReviewsInTimeFrame(db, tenantID, timeFrames[i].Start, timeFrames[i].End);
      if reviews.Err? {
        assert !FetchedFrame(db, tenantID, now, i);
        assert FirstFetchFailure(db, tenantID, now, i, reviews.error);
        return Err(reviews.error);
      }
      var proofs := GetProofsInTimeFrame(db, tenantID, timeFrames[i].Start, timeFrames[i].End);
      if proofs.Err? {
        assert !FetchedFrame(db, tenantID, now, i);
        assert FirstFetchFailure(db, tenantID, now, i, proofs.error);
        return Err(proofs.error);
      }
      var avg := CalculateAverageEngagement(reviews.value, proofs.value);
      trends[i] := avg;
    }
    r := Ok(EngagementTrends(trends[..], timeFrames));
  }
}
