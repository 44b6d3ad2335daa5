/**
 * The records the insights engine reads. The persistence schema does not declare
 * all of these fields; their shapes follow how the engine uses them.
 * Timestamps are whole seconds since the epoch.
 */
module Records {

  type Timestamp = int

  /** Views, likes and shares of a review. */
  datatype EngagementCounts = EngagementCounts(Views: nat, Likes: nat, Shares: nat)

  /** Views, conversions and the stored engagement rate of a social-proof event. */
  datatype ProofPerformance = ProofPerformance(Views: nat, Conversions: nat, EngagementRate: real)

  datatype Review = Review(
    Id: string,
    TenantId: string,
    ProductId: string,
    Rating: int,
    Content: string,
    Sentiment: real,
    Keywords: seq<string>,
    Engagement: EngagementCounts,
    CreatedAt: Timestamp)

  /** A social-proof event: Type is purchase, review, view, ...; MediaType is image, video, text. */
  datatype SocialProof = SocialProof(
    Id: string,
    TenantId: string,
    ProductId: string,
    Type: string,
    MediaType: string,
    Content: string,
    Performance: ProofPerformance,
    CreatedAt: Timestamp)

  datatype Product = Product(Id: string, Name: string)

  // Projections, so that averages can be written once over any field.

  function RatingOf(r: Review): real { r.Rating as real }

  function SentimentOf(r: Review): real { r.Sentiment }

  /** Likes plus shares never exceed views: the shape a well-formed review has. */
  predicate PlausibleReview(r: Review)
  {
    r.Engagement.Likes + r.Engagement.Shares <= r.Engagement.Views
  }

  /** Conversions never exceed views. */
  predicate PlausibleProof(p: SocialProof)
  {
    p.Performance.Conversions <= p.Performance.Views
  }
}
