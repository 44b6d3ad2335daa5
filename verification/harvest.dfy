/**
 * Counting the words an extractor draws from review texts. Both the content and
 * the keyword analyzer run an extractor over each review, skip the reviews it
 * fails on, and count every word it returns.
 */
module Harvesting {
  import opened Results
  import opened Records
  import opened Tally

  /** Draws words from a text, or fails. */
  type Extractor = string -> Result<seq<string>>

  /** The words drawn from one text, or none when the extractor fails on it. */
  function Drawn(extract: Extractor, text: string): seq<string>
  {
    match extract(text)
    case Err(_) => []
    case Ok(words) => words
  }

  /** Every word drawn from the reviews' texts, review by review; reviews the extractor fails on add nothing. */
  function Harvest(extract: Extractor, reviews: seq<Review>): seq<string>
    decreases |reviews|
  {
    if |reviews| == 0 then []
    else Harvest(extract, reviews[..|reviews| - 1]) + Drawn(extract, reviews[|reviews| - 1].Content)
  }

  lemma HarvestSnoc(extract: Extractor, reviews: seq<Review>, r: Review)
    ensures Harvest(extract, reviews + [r]) == Harvest(extract, reviews) + Drawn(extract, r.Content)
  {
    assert (reviews + [r])[..|reviews + [r]| - 1] == reviews;
  }

  /** A word is harvested exactly when the extractor succeeds on some review and draws it from that review. */
  lemma {:induction false} HarvestSpec(extract: Extractor, reviews: seq<Review>)
    ensures forall w :: w in Harvest(extract, reviews) <==>
      exists i :: 0 <= i < |reviews| && extract(reviews[i].Content).Ok? && w in extract(reviews[i].Content).value
    decreases |reviews|
  {
    if |reviews| > 0 {
      var init := reviews[..|reviews| - 1];
      HarvestSpec(extract, init);
      forall w | exists i :: 0 <= i < |reviews| && extract(reviews[i].Content).Ok? && w in extract(reviews[i].Content).value
        ensures w in Harvest(extract, reviews)
      {
        var i :| 0 <= i < |reviews| && extract(reviews[i].Content).Ok? && w in extract(reviews[i].Content).value;
        if i < |reviews| - 1 {
          assert init[i] == reviews[i];
        }
      }
    }
  }

  /** Reviews the extractor fails on change nothing: they may be removed from the end without changing the harvest. */
  lemma HarvestSkipsFailures(extract: Extractor, reviews: seq<Review>, r: Review)
    requires extract(r.Content).Err?
    ensures Harvest(extract, reviews + [r]) == Harvest(extract, reviews)
  {
    HarvestSnoc(extract, reviews, r);
    assert Harvest(extract, reviews) + [] == Harvest(extract, reviews);
  }

  /** How many times a word was drawn over all the reviews. */
  function Mentions(extract: Extractor, reviews: seq<Review>, w: string): nat
  {
    multiset(Harvest(extract, reviews))[w]
  }
}
