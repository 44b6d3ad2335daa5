/**
 * Numbered-list parsing of a generated answer, the confidence formula of a
 * recommendation, and the ranking of the best-performing records
 * (services/ai/utils/recomendations.go).
 */
module Recommendations {
  import opened Records
  import opened Strings
  import opened Ranking
  import opened Engagement

  // ----- ParseRecommendations -----

  /** The characters of a list bullet: digits, full stops and spaces. */
  const BulletChars: string := "0123456789. "

  /** One line cleaned: white space trimmed at both ends, then the leading bullet removed. */
  function CleanLine(line: string): (item: string)
    ensures item == [] || (item[0] !in BulletChars && !IsSpace(item[|item| - 1]))
    ensures var trimmed := TrimSpace(line);
      |item| <= |trimmed| && item == trimmed[|trimmed| - |item|..] &&
      forall k :: 0 <= k < |trimmed| - |item| ==> trimmed[k] in BulletChars
  {
    StripBullet(TrimSpace(line))
  }

  /** The leading bullet of a trimmed line removed; the end of the line is kept. */
  function StripBullet(trimmed: string): (item: string)
    requires trimmed == [] || !IsSpace(trimmed[|trimmed| - 1])
    ensures item == [] || (item[0] !in BulletChars && !IsSpace(item[|item| - 1]))
    ensures |item| <= |trimmed| && item == trimmed[|trimmed| - |item|..]
    ensures forall k :: 0 <= k < |trimmed| - |item| ==> trimmed[k] in BulletChars
  {
    var item := TrimLeft(trimmed, BulletChars);
    SuffixLast(trimmed, item);
    item
  }

  /** The items of an answer: its lines, cleaned, with those left empty dropped, in order. */
  function Items(answer: string): seq<string>
  {
    Cleaned(Split(answer, '\n'), CleanLine)
  }

  method ParseRecommendations(aiResponse: string) returns (recommendations: seq<string>)
    ensures recommendations == Items(aiResponse)
    ensures forall i :: 0 <= i < |recommendations| ==> recommendations[i] != ""
    ensures forall i :: 0 <= i < |recommendations| ==>
      recommendations[i][0] !in BulletChars && !IsSpace(recommendations[i][|recommendations[i]| - 1])
    ensures |recommendations| <= multiset(aiResponse)['\n'] + 1
  {
    var lines := Split(aiResponse, '\n');
    recommendations := CleanLines(lines);
    ItemsShape(aiResponse);
    SplitCount(aiResponse, '\n');
  }

  /** The loop over the lines: trim, strip the bullet, keep the line if anything is left. */
  method CleanLines(lines: seq<string>) returns (recommendations: seq<string>)
    ensures recommendations == Cleaned(lines, CleanLine)
  {
    recommendations := [];
    for n := 0 to |lines|
      invariant recommendations == Cleaned(lines[..n], CleanLine)
    {
      CleanedPrefix(lines, n, CleanLine);
      var line := CleanLine(lines[n]);
      if line == "" {
        continue;
      }
      recommendations := recommendations + [line];
    }
    assert lines[..|lines|] == lines;
  }

  /** Every item is a cleaned line: it starts with no bullet character and ends with no white space. */
  lemma ItemsShape(answer: string)
    ensures forall i :: 0 <= i < |Items(answer)| ==>
      Items(answer)[i][0] !in BulletChars && !IsSpace(Items(answer)[i][|Items(answer)[i]| - 1])
  {
    var lines := Split(answer, '\n');
    CleanedFrom(lines, CleanLine);
    forall i | 0 <= i < |Items(answer)|
      ensures Items(answer)[i][0] !in BulletChars && !IsSpace(Items(answer)[i][|Items(answer)[i]| - 1])
    {
      var j :| 0 <= j < |lines| && Items(answer)[i] == CleanLine(lines[j]);
    }
  }

  /** The items of two answers joined by a line break are those of the first, then those of the second. */
  lemma ItemsConcat(a: string, b: string)
    ensures Items(a + "\n" + b) == Items(a) + Items(b)
  {
    SplitConcat(a, b, '\n');
    CleanedAppend(Split(a, '\n'), Split(b, '\n'), CleanLine);
  }

  // ----- CalculateConfidence -----

  /** The sample size scaled to [0, 1]: size / 1000, capped at 1. */
  function SampleWeight(sampleSize: int): (w: real)
    ensures w <= 1.0
    ensures w == 1.0 <==> sampleSize >= 1000
    ensures sampleSize < 1000 ==> w * 1000.0 == sampleSize as real
    ensures sampleSize >= 0 ==> 0.0 <= w
  {
    var w := sampleSize as real / 1000.0;
    if w > 1.0 then 1.0 else w
  }

  /**
   * 0.4 of the sample weight plus 0.6 of the success rate, capped at 1. Only the
   * upper end is capped: a negative input gives a negative confidence.
   */
  function CalculateConfidence(sampleSize: int, successRate: real): (confidence: real)
    ensures confidence <= 1.0
    ensures SampleWeight(sampleSize) * 0.4 + successRate * 0.6 <= 1.0 ==>
      confidence == SampleWeight(sampleSize) * 0.4 + successRate * 0.6
  {
    var confidence := SampleWeight(sampleSize) * 0.4 + successRate * 0.6;
    if confidence > 1.0 then 1.0 else confidence
  }

  /** For a real sample and a rate in [0, 1] the confidence is a probability-like score in [0, 1]. */
  lemma ConfidenceBounds(sampleSize: int, successRate: real)
    requires sampleSize >= 0 && 0.0 <= successRate <= 1.0
    ensures 0.0 <= CalculateConfidence(sampleSize, successRate) <= 1.0
  {
  }

  /** More samples or a higher success rate never lower the confidence. */
  lemma ConfidenceMonotone(n1: int, r1: real, n2: int, r2: real)
    requires n1 <= n2 && r1 <= r2
    ensures CalculateConfidence(n1, r1) <= CalculateConfidence(n2, r2)
  {
    assert SampleWeight(n1) <= SampleWeight(n2);
  }

  /** Confidence reaches 1 for a full sample with total success, and is 0 with neither. */
  lemma ConfidenceExamples()
    ensures CalculateConfidence(1000, 1.0) == 1.0
    ensures CalculateConfidence(0, 0.0) == 0.0
    ensures CalculateConfidence(500, 0.8) == 0.68
    ensures CalculateConfidence(5000, 0.5) == 0.7
  {
  }

  /** The cap is one-sided: a negative sample size drives the confidence below 0. */
  lemma ConfidenceUnclampedBelow()
    ensures CalculateConfidence(-1000, 0.0) < 0.0
  {
  }

  // ----- FindTopPerformers -----

  /** A ranked record: its kind ("review" or the event's own type), id, score, content and creation time. */
  datatype Performer = Performer(Kind: string, Id: string, Score: real, Content: string, CreatedAt: Timestamp)

  /** A review ranks as kind "review", scored by its engagement ratio. */
  function ReviewPerformer(r: Review): Performer
  {
    Performer("review", r.Id, ReviewEngagement(r), r.Content, r.CreatedAt)
  }

  /** An event ranks under its own type, scored by its conversion ratio. */
  function ProofPerformer(s: SocialProof): Performer
  {
    Performer(s.Type, s.Id, ProofEngagement(s), s.Content, s.CreatedAt)
  }

  /** Every record as a performer: the reviews first, then the events, in input order. */
  function Performers(reviews: seq<Review>, proofs: seq<SocialProof>): (ps: seq<Performer>)
    ensures |ps| == |reviews| + |proofs|
    ensures forall i :: 0 <= i < |reviews| ==> ps[i] == ReviewPerformer(reviews[i])
    ensures forall j :: 0 <= j < |proofs| ==> ps[|reviews| + j] == ProofPerformer(proofs[j])
  {
    seq(|reviews|, i requires 0 <= i < |reviews| => ReviewPerformer(reviews[i]))
    + seq(|proofs|, j requires 0 <= j < |proofs| => ProofPerformer(proofs[j]))
  }

  function ScoreOf(p: Performer): real { p.Score }

  /**
   * The ten best-scoring records, best first: at most ten, drawn from the input,
   * and none left out that scores higher than one kept.
   */
  method FindTopPerformers(reviews: seq<Review>, proofs: seq<SocialProof>) returns (result: seq<Performer>)
    ensures |result| == Min(10, |reviews| + |proofs|)
    ensures multiset(result) <= multiset(Performers(reviews, proofs))
    ensures forall i, j :: 0 <= i < j < |result| ==> result[i].Score >= result[j].Score
    ensures forall p, i :: p in multiset(Performers(reviews, proofs)) - multiset(result) && 0 <= i < |result| ==>
      p.Score <= result[i].Score
  {
    var performers: seq<Performer> := [];
    for n := 0 to |reviews|
      invariant |performers| == n
      invariant forall i :: 0 <= i < n ==> performers[i] == ReviewPerformer(reviews[i])
    {
      var review := reviews[n];
      var score := ReviewEngagement(review);
      performers := performers + [Performer("review", review.Id, score, review.Content, review.CreatedAt)];
    }
    for n := 0 to |proofs|
      invariant |performers| == |reviews| + n
      invariant forall i :: 0 <= i < |reviews| ==> performers[i] == ReviewPerformer(reviews[i])
      invariant forall j :: 0 <= j < n ==> performers[|reviews| + j] == ProofPerformer(proofs[j])
    {
      var proof := proofs[n];
      var score := ProofEngagement(proof);
      performers := performers + [Performer(proof.Type, proof.Id, score, proof.Content, proof.CreatedAt)];
    }
    assert performers == Performers(reviews, proofs);
    result := TopBy(performers, ScoreOf, 10);
    forall p, i | p in multiset(performers) - multiset(result) && 0 <= i < |result|
      ensures p.Score <= result[i].Score
    {
      assert ScoreOf(p) <= ScoreOf(result[i]);
    }
  }

  /** Every performer ranked is a review tagged "review" or an event tagged with its own type, scored by its ratio. */
  lemma PerformersTagged(reviews: seq<Review>, proofs: seq<SocialProof>, p: Performer)
    requires p in multiset(Performers(reviews, proofs))
    ensures (exists i :: 0 <= i < |reviews| && p == ReviewPerformer(reviews[i]))
         || (exists j :: 0 <= j < |proofs| && p == ProofPerformer(proofs[j]))
  {
    var ps := Performers(reviews, proofs);
    var k :| 0 <= k < |ps| && ps[k] == p;
    if k >= |reviews| {
      assert ps[|reviews| + (k - |reviews|)] == p;
    }
  }
}
