/**
 * Engagement ratios, averages and the bucketing of records into weekly frames
 * (services/ai/utils/engagement.go).
 */
module Engagement {
  import opened Records
  import opened Results
  import opened Stats
  import opened TimeFrames

  /** (likes + shares) / views, and 0 instead of a division by zero when there are no views. */
  function ReviewEngagement(r: Review): (ratio: real)
    ensures r.Engagement.Views == 0 ==> ratio == 0.0
    ensures r.Engagement.Views > 0 ==>
      ratio * (r.Engagement.Views as real) == (r.Engagement.Likes + r.Engagement.Shares) as real
    ensures 0.0 <= ratio
    ensures PlausibleReview(r) ==> ratio <= 1.0
  {
    if r.Engagement.Views == 0 then 0.0
    else (r.Engagement.Likes + r.Engagement.Shares) as real / r.Engagement.Views as real
  }

  /** conversions / views, and 0 when there are no views. */
  function ProofEngagement(p: SocialProof): (ratio: real)
    ensures p.Performance.Views == 0 ==> ratio == 0.0
    ensures p.Performance.Views > 0 ==>
      ratio * (p.Performance.Views as real) == p.Performance.Conversions as real
    ensures 0.0 <= ratio
    ensures PlausibleProof(p) ==> ratio <= 1.0
  {
    if p.Performance.Views == 0 then 0.0
    else p.Performance.Conversions as real / p.Performance.Views as real
  }

  /** The mean review sentiment; 0 for no reviews. */
  method CalculateAverageSentiment(reviews: seq<Review>) returns (avg: real)
    ensures avg == Mean(reviews, SentimentOf)
  {
    if |reviews| == 0 {
      return 0.0;
    }
    var total := 0.0;
    for n := 0 to |reviews|
      invariant total == SumOf(reviews[..n], SentimentOf)
    {
      assert reviews[..n + 1][..n] == reviews[..n];
      total := total + reviews[n].Sentiment;
    }
    assert reviews[..|reviews|] == reviews;
    avg := total / (|reviews| as real);
  }

  /**
   * The mean engagement ratio over every review and every event together, those
   * without views counting as 0; 0 when there is no record at all.
   */
  function AverageEngagement(reviews: seq<Review>, proofs: seq<SocialProof>): real
  {
    if |reviews| + |proofs| == 0 then 0.0
    else (SumOf(reviews, ReviewEngagement) + SumOf(proofs, ProofEngagement)) / ((|reviews| + |proofs|) as real)
  }

  method CalculateAverageEngagement(reviews: seq<Review>, proofs: seq<SocialProof>) returns (avg: real)
    ensures avg == AverageEngagement(reviews, proofs)
  {
    var total := 0.0;
    var count := 0;
    for n := 0 to |reviews|
      invariant total == SumOf(reviews[..n], ReviewEngagement) && count == n
    {
      assert reviews[..n + 1][..n] == reviews[..n];
      total := total + ReviewEngagement(reviews[n]);
      count := count + 1;
    }
    assert reviews[..|reviews|] == reviews;
    for n := 0 to |proofs|
      invariant total == SumOf(reviews, ReviewEngagement) + SumOf(proofs[..n], ProofEngagement)
      invariant count == |reviews| + n
    {
      assert proofs[..n + 1][..n] == proofs[..n];
      total := total + ProofEngagement(proofs[n]);
      count := count + 1;
    }
    assert proofs[..|proofs|] == proofs;
    if count == 0 {
      return 0.0;
    }
    avg := total / (count as real);
  }

  /** Over plausible records the average engagement is a ratio in [0, 1]; with no records it is 0. */
  lemma AverageEngagementBounds(reviews: seq<Review>, proofs: seq<SocialProof>)
    requires forall i :: 0 <= i < |reviews| ==> PlausibleReview(reviews[i])
    requires forall i :: 0 <= i < |proofs| ==> PlausibleProof(proofs[i])
    ensures |reviews| + |proofs| == 0 ==> AverageEngagement(reviews, proofs) == 0.0
    ensures 0.0 <= AverageEngagement(reviews, proofs) <= 1.0
  {
    SumOfBounds(reviews, ReviewEngagement, 0.0, 1.0);
    SumOfBounds(proofs, ProofEngagement, 0.0, 1.0);
    if |reviews| + |proofs| > 0 {
      RatioBounds(SumOf(reviews, ReviewEngagement) + SumOf(proofs, ProofEngagement), (|reviews| + |proofs|) as real);
    }
  }

  lemma RatioBounds(total: real, n: real)
    requires n > 0.0 && 0.0 <= total <= n
    ensures 0.0 <= total / n <= 1.0
  {
  }

  /**
   * A review without views still counts: adding one leaves the total unchanged
   * and adds one to the count, so it pulls the average towards 0.
   */
  lemma ZeroViewReviewDilutes(reviews: seq<Review>, proofs: seq<SocialProof>, z: Review)
    requires z.Engagement.Views == 0
    ensures AverageEngagement(reviews + [z], proofs) * ((|reviews| + |proofs| + 1) as real)
         == AverageEngagement(reviews, proofs) * ((|reviews| + |proofs|) as real)
  {
    SumOfAppend(reviews, [z], ReviewEngagement);
    assert SumOf([z], ReviewEngagement) == 0.0 by { assert [z][..0] == []; }
  }

  /** The average is positive as soon as one record has a positive ratio. */
  lemma AverageEngagementPositive(reviews: seq<Review>, proofs: seq<SocialProof>)
    requires (exists i :: 0 <= i < |reviews| && ReviewEngagement(reviews[i]) > 0.0)
          || (exists i :: 0 <= i < |proofs| && ProofEngagement(proofs[i]) > 0.0)
    ensures AverageEngagement(reviews, proofs) > 0.0
  {
    SumOfNonNegative(reviews, ReviewEngagement);
    SumOfNonNegative(proofs, ProofEngagement);
    PositiveRatio(SumOf(reviews, ReviewEngagement) + SumOf(proofs, ProofEngagement), (|reviews| + |proofs|) as real);
  }

  lemma PositiveRatio(total: real, n: real)
    requires total > 0.0 && n > 0.0
    ensures total / n > 0.0
  {
  }

  // ----- Bucketing into frames -----

  /** t lies strictly inside frame i: after its start and before its end. */
  predicate Inside(now: Timestamp, t: Timestamp, i: int)
  {
    FrameStart(now, i) < t < FrameEnd(now, i)
  }

  /** The first frame, scanning from index i, whose open interval contains t. */
  function FirstFrameFrom(now: Timestamp, t: Timestamp, i: nat): Option<nat>
    decreases FrameCount - i
  {
    if i >= FrameCount then None
    else if Inside(now, t, i) then Some(i)
    else FirstFrameFrom(now, t, i + 1)
  }

  /** The frame a record created at t is put in, if any. */
  function FirstFrame(now: Timestamp, t: Timestamp): Option<nat>
  {
    FirstFrameFrom(now, t, 0)
  }

  lemma {:induction false} FirstFrameFromSpec(now: Timestamp, t: Timestamp, i: nat, j: nat)
    requires i <= FrameCount
    ensures FirstFrameFrom(now, t, i) == Some(j) <==> i <= j < FrameCount && Inside(now, t, j)
    decreases FrameCount - i
  {
    if i < FrameCount && !Inside(now, t, i) {
      FirstFrameFromSpec(now, t, i + 1, j);
      if i == j {
        assert !Inside(now, t, j);
      }
    }
  }

  /**
   * Frames do not overlap, so the first match is the only match: a record goes to
   * frame i exactly when t lies strictly between that frame's start and end.
   */
  lemma FirstFrameSpec(now: Timestamp, t: Timestamp, i: nat)
    ensures FirstFrame(now, t) == Some(i) <==> i < FrameCount && Inside(now, t, i)
  {
    FirstFrameFromSpec(now, t, 0, i);
  }

  /** A record exactly on a frame boundary is in no frame. */
  lemma BoundaryDropped(now: Timestamp, k: nat)
    requires k <= FrameCount
    ensures FirstFrame(now, FrameEnd(now, k)) == None
  {
    forall i: nat ensures FirstFrame(now, FrameEnd(now, k)) != Some(i) {
      FirstFrameSpec(now, FrameEnd(now, k), i);
    }
  }

  /** A record created at now or later, or twelve weeks ago or earlier, is in no frame. */
  lemma OutsideDropped(now: Timestamp, t: Timestamp)
    requires t >= now || t <= now - FrameCount * Week
    ensures FirstFrame(now, t) == None
  {
    forall i: nat ensures FirstFrame(now, t) != Some(i) {
      FirstFrameSpec(now, t, i);
    }
  }

  /** The reviews that go to frame i, in input order. */
  function ReviewsInFrame(reviews: seq<Review>, now: Timestamp, i: nat): seq<Review>
    decreases |reviews|
  {
    if |reviews| == 0 then []
    else
      var x := reviews[|reviews| - 1];
      ReviewsInFrame(reviews[..|reviews| - 1], now, i) + (if FirstFrame(now, x.CreatedAt) == Some(i) then [x] else [])
  }

  /** The events that go to frame i, in input order. */
  function ProofsInFrame(proofs: seq<SocialProof>, now: Timestamp, i: nat): seq<SocialProof>
    decreases |proofs|
  {
    if |proofs| == 0 then []
    else
      var x := proofs[|proofs| - 1];
      ProofsInFrame(proofs[..|proofs| - 1], now, i) + (if FirstFrame(now, x.CreatedAt) == Some(i) then [x] else [])
  }

  /**
   * Frame i holds exactly the reviews whose first containing frame is i, each as
   * often as in the input and no more.
   */
  lemma {:induction false} ReviewsInFrameSpec(reviews: seq<Review>, now: Timestamp, i: nat)
    ensures multiset(ReviewsInFrame(reviews, now, i)) <= multiset(reviews)
    ensures forall x :: x in ReviewsInFrame(reviews, now, i) <==> x in reviews && FirstFrame(now, x.CreatedAt) == Some(i)
    decreases |reviews|
  {
    if |reviews| > 0 {
      var init := reviews[..|reviews| - 1];
      var x := reviews[|reviews| - 1];
      assert reviews == init + [x];
      ReviewsInFrameSpec(init, now, i);
    }
  }

  /** The event counterpart of ReviewsInFrameSpec. */
  lemma {:induction false} ProofsInFrameSpec(proofs: seq<SocialProof>, now: Timestamp, i: nat)
    ensures multiset(ProofsInFrame(proofs, now, i)) <= multiset(proofs)
    ensures forall x :: x in ProofsInFrame(proofs, now, i) <==> x in proofs && FirstFrame(now, x.CreatedAt) == Some(i)
    decreases |proofs|
  {
    if |proofs| > 0 {
      var init := proofs[..|proofs| - 1];
      var x := proofs[|proofs| - 1];
      assert proofs == init + [x];
      ProofsInFrameSpec(init, now, i);
    }
  }

  lemma ReviewsInFrameSnoc(reviews: seq<Review>, x: Review, now: Timestamp)
    ensures forall i: nat ::
              ReviewsInFrame(reviews + [x], now, i) == ReviewsInFrame(reviews, now, i) + (if FirstFrame(now, x.CreatedAt) == Some(i) then [x] else [])
  {
    assert (reviews + [x])[..|reviews + [x]| - 1] == reviews;
  }

  lemma ProofsInFrameSnoc(proofs: seq<SocialProof>, x: SocialProof, now: Timestamp)
    ensures forall i: nat ::
              ProofsInFrame(proofs + [x], now, i) == ProofsInFrame(proofs, now, i) + (if FirstFrame(now, x.CreatedAt) == Some(i) then [x] else [])
  {
    assert (proofs + [x])[..|proofs + [x]| - 1] == proofs;
  }

  /** No review is in two frames. */
  lemma FramesDisjoint(reviews: seq<Review>, now: Timestamp, i: nat, j: nat)
    requires i != j
    ensures forall x :: !(x in ReviewsInFrame(reviews, now, i) && x in ReviewsInFrame(reviews, now, j))
  {
    ReviewsInFrameSpec(reviews, now, i);
    ReviewsInFrameSpec(reviews, now, j);
  }

  /**
   * Bucketing is idempotent: the reviews of frame i, bucketed again, all land in
   * frame i and nowhere else.
   */
  lemma {:induction false} RebucketFrame(reviews: seq<Review>, now: Timestamp, i: nat, j: nat)
    ensures ReviewsInFrame(ReviewsInFrame(reviews, now, i), now, j)
         == if i == j then ReviewsInFrame(reviews, now, i) else []
    decreases |reviews|
  {
    if |reviews| > 0 {
      var init := reviews[..|reviews| - 1];
      var x := reviews[|reviews| - 1];
      RebucketFrame(init, now, i, j);
      var inner := ReviewsInFrame(init, now, i);
      if FirstFrame(now, x.CreatedAt) == Some(i) {
        assert ReviewsInFrame(reviews, now, i) == inner + [x];
        assert (inner + [x])[..|inner + [x]| - 1] == inner;
      } else {
        assert ReviewsInFrame(reviews, now, i) == inner;
      }
    }
  }

  /** Frames whose bounds are those of the twelve weekly frames ending at now. */
  ghost predicate WeeklyBounds(frames: array<TimeFrame>, now: Timestamp)
    reads frames
  {
    frames.Length == FrameCount &&
    forall j :: 0 <= j < FrameCount ==> frames[j].Start == FrameStart(now, j) && frames[j].End == FrameEnd(now, j)
  }

  /** The inner scan of the bucketing loops: the first frame strictly containing t. */
  method FindFrame(frames: array<TimeFrame>, ghost now: Timestamp, t: Timestamp) returns (found: Option<nat>)
    requires WeeklyBounds(frames, now)
    ensures found == FirstFrame(now, t)
    ensures found.Some? ==> found.value < frames.Length
  {
    var i := 0;
    while i < frames.Length
      invariant 0 <= i <= FrameCount
      invariant FirstFrame(now, t) == FirstFrameFrom(now, t, i)
    {
      if frames[i].Start < t && t < frames[i].End {
        return Some(i);
      }
      i := i + 1;
    }
    return None;
  }

  /** The review loop of the bucketing: appends each review to its frame. */
  method BucketReviews(frames: array<TimeFrame>, now: Timestamp, reviews: seq<Review>)
    requires WeeklyBounds(frames, now)
    requires forall i :: 0 <= i < FrameCount ==> frames[i].Reviews == []
    modifies frames
    ensures WeeklyBounds(frames, now)
    ensures forall i :: 0 <= i < FrameCount ==>
      frames[i].Reviews == ReviewsInFrame(reviews, now, i) && frames[i].Proofs == old(frames[i].Proofs)
  {
    for n := 0 to |reviews|
      invariant WeeklyBounds(frames, now)
      invariant forall i :: 0 <= i < FrameCount ==>
        frames[i].Reviews == ReviewsInFrame(reviews[..n], now, i) && frames[i].Proofs == old(frames[i].Proofs)
    {
      var r := reviews[n];
      assert reviews[..n + 1] == reviews[..n] + [r];
      ReviewsInFrameSnoc(reviews[..n], r, now);
      var found := FindFrame(frames, now, r.CreatedAt);
      if found.Some? {
        var i := found.value;
        frames[i] := frames[i].(Reviews := frames[i].Reviews + [r]);
      }
    }
    assert reviews[..|reviews|] == reviews;
  }

  /** The event loop of the bucketing: appends each event to its frame. */
  method BucketProofs(frames: array<TimeFrame>, now: Timestamp, proofs: seq<SocialProof>)
    requires WeeklyBounds(frames, now)
    requires forall i :: 0 <= i < FrameCount ==> frames[i].Proofs == []
    modifies frames
    ensures WeeklyBounds(frames, now)
    ensures forall i :: 0 <= i < FrameCount ==>
      frames[i].Proofs == ProofsInFrame(proofs, now, i) && frames[i].Reviews == old(frames[i].Reviews)
  {
    for n := 0 to |proofs|
      invariant WeeklyBounds(frames, now)
      invariant forall i :: 0 <= i < FrameCount ==>
        frames[i].Proofs == ProofsInFrame(proofs[..n], now, i) && frames[i].Reviews == old(frames[i].Reviews)
    {
      var p := proofs[n];
      assert proofs[..n + 1] == proofs[..n] + [p];
      ProofsInFrameSnoc(proofs[..n], p, now);
      var found := FindFrame(frames, now, p.CreatedAt);
      if found.Some? {
        var i := found.value;
        frames[i] := frames[i].(Proofs := frames[i].Proofs + [p]);
      }
    }
    assert proofs[..|proofs|] == proofs;
  }

  /**
   * Twelve weekly frames ending at now, each holding the reviews and events that
   * fall strictly inside it, in input order; each record goes to the first frame
   * that contains it, and records in no frame are dropped.
   */
  method GroupByTimeFrames(now: Timestamp, reviews: seq<Review>, proofs: seq<SocialProof>) returns (result: seq<TimeFrame>)
    ensures |result| == FrameCount
    ensures forall i :: 0 <= i < FrameCount ==>
      result[i].Start == FrameStart(now, i) && result[i].End == FrameEnd(now, i)
    ensures forall i :: 0 <= i < FrameCount ==>
      result[i].Reviews == ReviewsInFrame(reviews, now, i) && result[i].Proofs == ProofsInFrame(proofs, now, i)
  {
    var frames := new TimeFrame[FrameCount](i => TimeFrame([], [], FrameStart(now, i), FrameEnd(now, i)));
    BucketReviews(frames, now, reviews);
    BucketProofs(frames, now, proofs);
    result := frames[..];
  }
}
