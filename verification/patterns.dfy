/**
 * The three pattern detectors over social-proof events (content by media type,
 * timing by hour of day, placement by event type) and the canned sentence each
 * pattern recommends (services/ai/utils/patterns.go).
 */
module Patterns {
  import opened Records
  import opened Tally
  import opened Ranking

  /** A detected pattern: its kind, how many events it saw, the share that did well, and a count per key. */
  datatype Pattern = Pattern(Type: string, SampleSize: nat, SuccessRate: real, Distribution: map<string, nat>)

  /** An event did well when its stored engagement rate is above one half. */
  predicate Successful(p: SocialProof)
  {
    p.Performance.EngagementRate > 0.5
  }

  /** How many of the events did well. */
  function Successes(proofs: seq<SocialProof>): (n: nat)
    ensures n <= |proofs|
    decreases |proofs|
  {
    if |proofs| == 0 then 0
    else Successes(proofs[..|proofs| - 1]) + (if Successful(proofs[|proofs| - 1]) then 1 else 0)
  }

  /** Successes counts exactly the successful events. */
  lemma {:induction false} SuccessesSpec(proofs: seq<SocialProof>)
    ensures Successes(proofs) == |proofs| <==> forall i :: 0 <= i < |proofs| ==> Successful(proofs[i])
    ensures Successes(proofs) == 0 <==> forall i :: 0 <= i < |proofs| ==> !Successful(proofs[i])
    decreases |proofs|
  {
    if |proofs| > 0 {
      var init := proofs[..|proofs| - 1];
      SuccessesSpec(init);
      assert forall i :: 0 <= i < |init| ==> init[i] == proofs[i];
    }
  }

  /** The share of events that did well; 0 when there are none. */
  function Rate(proofs: seq<SocialProof>): (r: real)
    ensures 0.0 <= r <= 1.0
    ensures |proofs| == 0 ==> r == 0.0
    ensures |proofs| > 0 ==> r * (|proofs| as real) == Successes(proofs) as real
  {
    if |proofs| == 0 then 0.0 else Successes(proofs) as real / (|proofs| as real)
  }

  // ----- Keys the detectors count by -----

  /** Which field of an event a detector counts by. */
  datatype Dimension = ByMediaType | ByHour | ByType

  /** The hour of day of a timestamp, 0 to 23 (UTC). */
  function HourOf(t: Timestamp): (h: nat)
    ensures h < 24
  {
    (t % 86400) / 3600
  }

  /** A two-digit decimal label, "00" to "99". */
  function TwoDigits(h: nat): (s: string)
    requires h < 100
    ensures |s| == 2 && '0' <= s[0] <= '9' && '0' <= s[1] <= '9'
  {
    [(48 + h / 10) as char, (48 + h % 10) as char]
  }

  /** Distinct hours get distinct labels, so counting by label is counting by hour. */
  lemma TwoDigitsInjective(a: nat, b: nat)
    requires a < 100 && b < 100
    ensures TwoDigits(a) == TwoDigits(b) <==> a == b
  {
    if TwoDigits(a) == TwoDigits(b) {
      assert (48 + a / 10) as char == (48 + b / 10) as char;
      assert (48 + a % 10) as char == (48 + b % 10) as char;
      assert a == 10 * (a / 10) + a % 10;
      assert b == 10 * (b / 10) + b % 10;
    }
  }

  /** The key of an event along a dimension: its media type, its two-digit creation hour, or its type. */
  function KeyOf(d: Dimension, p: SocialProof): string
  {
    match d
    case ByMediaType => p.MediaType
    case ByHour => TwoDigits(HourOf(p.CreatedAt))
    case ByType => p.Type
  }

  /** The keys of the events along a dimension, in order. */
  function Keys(d: Dimension, proofs: seq<SocialProof>): (ks: seq<string>)
    ensures |ks| == |proofs|
    decreases |proofs|
  {
    if |proofs| == 0 then [] else Keys(d, proofs[..|proofs| - 1]) + [KeyOf(d, proofs[|proofs| - 1])]
  }

  lemma KeysPrefix(d: Dimension, proofs: seq<SocialProof>, n: nat)
    requires n < |proofs|
    ensures Keys(d, proofs[..n + 1]) == Keys(d, proofs[..n]) + [KeyOf(d, proofs[n])]
    ensures Successes(proofs[..n + 1]) == Successes(proofs[..n]) + (if Successful(proofs[n]) then 1 else 0)
  {
    assert proofs[..n + 1][..n] == proofs[..n];
  }

  /** The pattern a detector of the given kind and dimension reports over the events. */
  function Detected(kind: string, d: Dimension, proofs: seq<SocialProof>): Pattern
  {
    Pattern(kind, |proofs|, Rate(proofs), Histogram(Keys(d, proofs)))
  }

  /**
   * The shared loop of the three detectors: one increment of the distribution per
   * event, under its key, and a count of the events that did well.
   */
  method Detect(kind: string, d: Dimension, proofs: seq<SocialProof>) returns (pattern: Pattern)
    ensures pattern == Detected(kind, d, proofs)
  {
    pattern := Pattern(kind, |proofs|, 0.0, map[]);
    var distribution, successCount := TallyEvents(d, proofs);
    pattern := pattern.(Distribution := distribution);
    if pattern.SampleSize > 0 {
      pattern := pattern.(SuccessRate := successCount as real / pattern.SampleSize as real);
    }
  }

  /** The loop of a detector: one increment of the distribution per event, and the count of those that did well. */
  method TallyEvents(d: Dimension, proofs: seq<SocialProof>) returns (distribution: map<string, nat>, successCount: nat)
    ensures distribution == Histogram(Keys(d, proofs))
    ensures successCount == Successes(proofs)
  {
    distribution, successCount := map[], 0;
    for n := 0 to |proofs|
      invariant distribution == Histogram(Keys(d, proofs[..n]))
      invariant successCount == Successes(proofs[..n])
    {
      var proof := proofs[n];
      KeysPrefix(d, proofs, n);
      HistogramSnoc(Keys(d, proofs[..n]), KeyOf(d, proof));
      distribution := Bump(distribution, KeyOf(d, proof));
      if proof.Performance.EngagementRate > 0.5 {
        successCount := successCount + 1;
      }
    }
    assert proofs[..|proofs|] == proofs;
  }

  /** Content pattern: events counted by media type. */
  method AnalyzeContentPattern(proofs: seq<SocialProof>) returns (pattern: Pattern)
    ensures pattern == Detected("content", ByMediaType, proofs)
  {
    pattern := Detect("content", ByMediaType, proofs);
  }

  /** Timing pattern: events counted by the hour of day they were created. */
  method AnalyzeTimingPattern(proofs: seq<SocialProof>) returns (pattern: Pattern)
    ensures pattern == Detected("timing", ByHour, proofs)
  {
    pattern := Detect("timing", ByHour, proofs);
  }

  /** Placement pattern: events counted by type. */
  method AnalyzePlacementPattern(proofs: seq<SocialProof>) returns (pattern: Pattern)
    ensures pattern == Detected("placement", ByType, proofs)
  {
    pattern := Detect("placement", ByType, proofs);
  }

  /**
   * What every detected pattern satisfies: the sample is the number of events,
   * the distribution counts add up to it and count each key's events, and the
   * success rate is a share in [0, 1].
   */
  lemma DetectedSpec(kind: string, d: Dimension, proofs: seq<SocialProof>)
    ensures Detected(kind, d, proofs).Type == kind
    ensures Detected(kind, d, proofs).SampleSize == |proofs|
    ensures Total(Detected(kind, d, proofs).Distribution) == |proofs|
    ensures forall k :: k in Detected(kind, d, proofs).Distribution <==> k in Keys(d, proofs)
    ensures forall k :: k in Detected(kind, d, proofs).Distribution ==>
      Detected(kind, d, proofs).Distribution[k] == multiset(Keys(d, proofs))[k]
    ensures 0.0 <= Detected(kind, d, proofs).SuccessRate <= 1.0
    ensures |proofs| == 0 ==> Detected(kind, d, proofs).SuccessRate == 0.0
  {
    TotalHistogram(Keys(d, proofs));
    HistogramSpec(Keys(d, proofs));
  }

  /** When every event did well the success rate is 1. */
  lemma AllSuccessfulRate(proofs: seq<SocialProof>)
    requires |proofs| > 0
    requires forall i :: 0 <= i < |proofs| ==> Successful(proofs[i])
    ensures Rate(proofs) == 1.0
  {
    SuccessesSpec(proofs);
    var n := |proofs| as real;
    assert Rate(proofs) * n == n;
    assert (Rate(proofs) - 1.0) * n == 0.0;
  }

  /** A key is in the distribution exactly when some event has it. */
  lemma {:induction false} KeysSpec(d: Dimension, proofs: seq<SocialProof>)
    ensures forall k :: k in Keys(d, proofs) <==> exists i :: 0 <= i < |proofs| && KeyOf(d, proofs[i]) == k
    decreases |proofs|
  {
    if |proofs| > 0 {
      var init := proofs[..|proofs| - 1];
      KeysSpec(d, init);
      assert forall i :: 0 <= i < |init| ==> init[i] == proofs[i];
    }
  }

  // ----- Recommendations -----

  const DefaultSentence := "Optimize your social proof strategy based on performance data"
  const ImageSentence := "Increase usage of visual content, particularly product images and customer photos"
  const VideoSentence := "Focus on video content, such as customer testimonials and product demonstrations"
  const DiversifySentence := "Diversify your content mix with both visual and textual social proof"
  const DistributeSentence := "Distribute social proof displays throughout the day"
  const PurchaseSentence := "Emphasize recent purchase notifications to create urgency"
  const ReviewSentence := "Highlight customer reviews prominently on product pages"
  const ViewSentence := "Display real-time viewer counts to show product popularity"
  const MixSentence := "Use a mix of social proof types across your site"

  /**
   * b is a possible outcome of a max loop over dist starting from floor: a key
   * whose count beats the floor and is maximal, or "" when no count beats it.
   */
  predicate PeakKey(dist: map<string, nat>, b: string, floor: int)
  {
    if exists k :: k in dist && dist[k] > floor
    then b in dist && dist[b] > floor && forall k :: k in dist ==> dist[k] <= dist[b]
    else b == ""
  }

  function ContentSentence(bestType: string): string
  {
    if bestType == "image" then ImageSentence
    else if bestType == "video" then VideoSentence
    else DiversifySentence
  }

  function TimingSentence(dist: map<string, nat>, hour: string): string
  {
    if |dist| > 0 then "Schedule social proof displays during peak engagement hours around " + hour + ":00"
    else DistributeSentence
  }

  function PlacementSentence(bestType: string): string
  {
    if bestType == "purchase" then PurchaseSentence
    else if bestType == "review" then ReviewSentence
    else if bestType == "view" then ViewSentence
    else MixSentence
  }

  /**
   * s is a recommendation the pattern can produce: the sentence of a media type
   * or event type of strictly positive, maximal count, the hour of a maximal
   * count, the fallback sentences when nothing qualifies, and the default
   * sentence for an unknown kind. Ties between maximal keys leave the choice open.
   */
  ghost predicate Recommends(p: Pattern, s: string)
  {
    if p.Type == "content" then exists b :: PeakKey(p.Distribution, b, 0) && s == ContentSentence(b)
    else if p.Type == "timing" then exists h :: PeakKey(p.Distribution, h, -1) && s == TimingSentence(p.Distribution, h)
    else if p.Type == "placement" then exists b :: PeakKey(p.Distribution, b, 0) && s == PlacementSentence(b)
    else s == DefaultSentence
  }

  method GenerateContentRecommendation(p: Pattern) returns (s: string)
    ensures exists b :: PeakKey(p.Distribution, b, 0) && s == ContentSentence(b)
  {
    var bestType, _ := Peak(p.Distribution, p.Distribution.Keys, 0);
    if bestType == "image" {
      s := ImageSentence;
    } else if bestType == "video" {
      s := VideoSentence;
    } else {
      s := DiversifySentence;
    }
    assert PeakKey(p.Distribution, bestType, 0);
  }

  method GenerateTimingRecommendation(p: Pattern) returns (s: string)
    ensures exists h :: PeakKey(p.Distribution, h, -1) && s == TimingSentence(p.Distribution, h)
  {
    var hour, found := Peak(p.Distribution, p.Distribution.Keys, -1);
    assert found <==> |p.Distribution| > 0 by {
      if |p.Distribution| > 0 {
        var k :| k in p.Distribution.Keys;
        assert p.Distribution[k] > -1;
      }
    }
    if found {
      s := "Schedule social proof displays during peak engagement hours around " + hour + ":00";
    } else {
      s := DistributeSentence;
    }
    assert PeakKey(p.Distribution, hour, -1);
  }

  method GeneratePlacementRecommendation(p: Pattern) returns (s: string)
    ensures exists b :: PeakKey(p.Distribution, b, 0) && s == PlacementSentence(b)
  {
    var bestType, _ := Peak(p.Distribution, p.Distribution.Keys, 0);
    if bestType == "purchase" {
      s := PurchaseSentence;
    } else if bestType == "review" {
      s := ReviewSentence;
    } else if bestType == "view" {
      s := ViewSentence;
    } else {
      s := MixSentence;
    }
    assert PeakKey(p.Distribution, bestType, 0);
  }

  /** The recommendation of a pattern, chosen by its kind. */
  method GenerateRecommendation(p: Pattern) returns (s: string)
    ensures Recommends(p, s)
    ensures p.Type !in {"content", "timing", "placement"} ==> s == DefaultSentence
  {
    if p.Type == "content" {
      s := GenerateContentRecommendation(p);
    } else if p.Type == "timing" {
      s := GenerateTimingRecommendation(p);
    } else if p.Type == "placement" {
      s := GeneratePlacementRecommendation(p);
    } else {
      s := DefaultSentence;
    }
  }

  /** With a strict winner the max loop has one outcome. */
  lemma PeakKeyUnique(dist: map<string, nat>, w: string, floor: int, b: string)
    requires w in dist && dist[w] > floor
    requires forall k :: k in dist && k != w ==> dist[k] < dist[w]
    requires PeakKey(dist, b, floor)
    ensures b == w
  {
  }

  /** A media type that strictly outnumbers every other decides the content recommendation. */
  lemma ContentStrictWinner(p: Pattern, w: string, s: string)
    requires p.Type == "content"
    requires w in p.Distribution && p.Distribution[w] > 0
    requires forall k :: k in p.Distribution && k != w ==> p.Distribution[k] < p.Distribution[w]
    requires Recommends(p, s)
    ensures s == ContentSentence(w)
  {
    var b :| PeakKey(p.Distribution, b, 0) && s == ContentSentence(b);
    PeakKeyUnique(p.Distribution, w, 0, b);
  }

  /** An event type that strictly outnumbers every other decides the placement recommendation. */
  lemma PlacementStrictWinner(p: Pattern, w: string, s: string)
    requires p.Type == "placement"
    requires w in p.Distribution && p.Distribution[w] > 0
    requires forall k :: k in p.Distribution && k != w ==> p.Distribution[k] < p.Distribution[w]
    requires Recommends(p, s)
    ensures s == PlacementSentence(w)
  {
    var b :| PeakKey(p.Distribution, b, 0) && s == PlacementSentence(b);
    PeakKeyUnique(p.Distribution, w, 0, b);
  }

  /** A timing recommendation names an hour that has a maximal count, or says to spread out when no hour was seen. */
  lemma TimingNamesPeakHour(p: Pattern, s: string)
    requires p.Type == "timing" && Recommends(p, s)
    ensures |p.Distribution| == 0 ==> s == DistributeSentence
    ensures |p.Distribution| > 0 ==>
      exists h :: h in p.Distribution
        && (forall k :: k in p.Distribution ==> p.Distribution[k] <= p.Distribution[h])
        && s == "Schedule social proof displays during peak engagement hours around " + h + ":00"
  {
    var h :| PeakKey(p.Distribution, h, -1) && s == TimingSentence(p.Distribution, h);
    if |p.Distribution| > 0 {
      var k :| k in p.Distribution;
      assert p.Distribution[k] > -1;
    }
  }

  /** With no events, every detector's pattern recommends its fallback sentence. */
  lemma EmptyPatternsFallBack(s1: string, s2: string, s3: string)
    requires Recommends(Detected("content", ByMediaType, []), s1)
    requires Recommends(Detected("timing", ByHour, []), s2)
    requires Recommends(Detected("placement", ByType, []), s3)
    ensures s1 == DiversifySentence && s2 == DistributeSentence && s3 == MixSentence
  {
    assert Histogram(Keys(ByMediaType, [])) == map[];
    assert Histogram(Keys(ByHour, [])) == map[];
    assert Histogram(Keys(ByType, [])) == map[];
  }
}
