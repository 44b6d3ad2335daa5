/**
 * Weekly time frames (services/ai/utils/time.go) and the per-frame database
 * fetches, modelled as filters over the stored records.
 */
module TimeFrames {
  import opened Records
  import opened Results

  const Day: int := 86400
  /** Every frame is seven days wide. */
  const Week: int := 7 * Day
  /** The last twelve weeks. */
  const FrameCount: nat := 12

  /** A window of time with the reviews and events placed in it. */
  datatype TimeFrame = TimeFrame(Reviews: seq<Review>, Proofs: seq<SocialProof>, Start: Timestamp, End: Timestamp)

  /** Frame i ends i weeks before now ... */
  function FrameEnd(now: Timestamp, i: int): Timestamp { now - i * Week }

  /** ... and starts one week before it ends. */
  function FrameStart(now: Timestamp, i: int): Timestamp { FrameEnd(now, i) - Week }

  /**
   * Twelve empty weekly frames walking back from now: frame 0 is the most recent
   * and frame i + 1 ends where frame i starts.
   */
  method GetTimeFrames(now: Timestamp) returns (frames: seq<TimeFrame>)
    ensures |frames| == FrameCount
    ensures frames[0].End == now
    ensures forall i :: 0 <= i < |frames| ==> frames[i].End - frames[i].Start == Week
    ensures forall i :: 0 <= i < |frames| - 1 ==> frames[i + 1].End == frames[i].Start
    ensures forall i :: 0 <= i < |frames| ==> frames[i].Reviews == [] && frames[i].Proofs == []
    ensures forall i :: 0 <= i < |frames| ==> frames[i].Start == FrameStart(now, i) && frames[i].End == FrameEnd(now, i)
  {
    var a := new TimeFrame[FrameCount](_ => TimeFrame([], [], 0, 0));
    for i := 0 to FrameCount
      invariant forall j :: 0 <= j < i ==> a[j] == TimeFrame([], [], FrameStart(now, j), FrameEnd(now, j))
      invariant forall j :: i <= j < FrameCount ==> a[j] == TimeFrame([], [], 0, 0)
    {
      a[i] := a[i].(End := now - 7 * i * Day);
      a[i] := a[i].(Start := a[i].End - Week);
    }
    frames := a[..];
  }

  /**
   * A fetch the database may fail; which fetches fail is part of the database's
   * state. The per-frame fetches report their failure; the recommender's
   * queries by product and by tenant do not, and a failed one leaves its
   * destination as it was: the zero product or no records.
   */
  datatype Query = ReviewsQuery(Tenant: string, Start: Timestamp, End: Timestamp)
                 | ProofsQuery(Tenant: string, Start: Timestamp, End: Timestamp)
                 | ProductQuery(ProductId: string)
                 | ProductReviewsQuery(ProductId: string)
                 | ProductProofsQuery(ProductId: string)
                 | HighEngagementQuery(Tenant: string)
                 | RecentProofsQuery(Tenant: string)
                 | TenantProofsQuery(Tenant: string)

  datatype Database = Database(Reviews: seq<Review>, Proofs: seq<SocialProof>, Products: seq<Product>, Faults: set<Query>)

  /** The tenant's reviews created in [start, end]: SQL BETWEEN includes both ends. */
  function ReviewsBetween(rs: seq<Review>, tenant: string, start: Timestamp, end: Timestamp): (r: seq<Review>)
    ensures forall x :: x in r ==> x in rs && x.TenantId == tenant && start <= x.CreatedAt <= end
    ensures forall x :: x in rs && x.TenantId == tenant && start <= x.CreatedAt <= end ==> x in r
    decreases |rs|
  {
    if |rs| == 0 then []
    else
      var x := rs[|rs| - 1];
      assert rs == rs[..|rs| - 1] + [x];
      ReviewsBetween(rs[..|rs| - 1], tenant, start, end)
        + (if x.TenantId == tenant && start <= x.CreatedAt <= end then [x] else [])
  }

  /** The tenant's events created in [start, end]. */
  function ProofsBetween(ps: seq<SocialProof>, tenant: string, start: Timestamp, end: Timestamp): (r: seq<SocialProof>)
    ensures forall x :: x in r ==> x in ps && x.TenantId == tenant && start <= x.CreatedAt <= end
    ensures forall x :: x in ps && x.TenantId == tenant && start <= x.CreatedAt <= end ==> x in r
    decreases |ps|
  {
    if |ps| == 0 then []
    else
      var x := ps[|ps| - 1];
      assert ps == ps[..|ps| - 1] + [x];
      ProofsBetween(ps[..|ps| - 1], tenant, start, end)
        + (if x.TenantId == tenant && start <= x.CreatedAt <= end then [x] else [])
  }

  /** Fails exactly when the database is set to fail this query. */
  function GetReviewsInTimeFrame(db: Database, tenant: string, start: Timestamp, end: Timestamp): Result<seq<Review>>
  {
    if ReviewsQuery(tenant, start, end) in db.Faults then Err("database error")
    else Ok(ReviewsBetween(db.Reviews, tenant, start, end))
  }

  function GetProofsInTimeFrame(db: Database, tenant: string, start: Timestamp, end: Timestamp): Result<seq<SocialProof>>
  {
    if ProofsQuery(tenant, start, end) in db.Faults then Err("database error")
    else Ok(ProofsBetween(db.Proofs, tenant, start, end))
  }

  /** The fetch of the tenant's reviews for weekly frame i before now. */
  function FrameReviews(db: Database, tenant: string, now: Timestamp, i: int): Result<seq<Review>>
  {
    GetReviewsInTimeFrame(db, tenant, FrameStart(now, i), FrameEnd(now, i))
  }

  /** The fetch of the tenant's events for weekly frame i before now. */
  function FrameProofs(db: Database, tenant: string, now: Timestamp, i: int): Result<seq<SocialProof>>
  {
    GetProofsInTimeFrame(db, tenant, FrameStart(now, i), FrameEnd(now, i))
  }

  /**
   * Adjacent frames share their boundary and BETWEEN includes both ends, so a
   * review created exactly where frame k + 1 ends and frame k starts is fetched
   * for both frames.
   */
  lemma BoundaryFetchedTwice(db: Database, tenant: string, now: Timestamp, k: int, r: Review)
    requires r in db.Reviews && r.TenantId == tenant && r.CreatedAt == FrameStart(now, k)
    requires FrameReviews(db, tenant, now, k).Ok? && FrameReviews(db, tenant, now, k + 1).Ok?
    ensures r in FrameReviews(db, tenant, now, k).value
    ensures r in FrameReviews(db, tenant, now, k + 1).value
  {
    assert FrameEnd(now, k + 1) == FrameStart(now, k);
  }
}
