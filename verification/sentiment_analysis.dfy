/**
 * Sentiment scoring and key-phrase extraction through a chat client
 * (services/ai/analyzers/sentiment_analyzer.go).
 */
module SentimentAnalysis {
  import opened Results
  import opened Records
  import opened Strings
  import opened Parsing
  import opened Providers

  /** Reading a float at the start of a reply (`fmt.Sscanf(reply, "%f", ...)`): the number, or the scan error. */
  type Scan = string -> Result<real>

  datatype SentimentAnalyzer = SentimentAnalyzer(Chat: Chat, Scan: Scan)

  // ----- AnalyzeSentiment -----

  /**
   * The score of one text: the number the reply starts with. A failed call and an
   * unreadable reply are both errors; a number outside [-1, 1] is returned as read.
   */
  function AnalyzeSentiment(sa: SentimentAnalyzer, text: string): (r: Result<real>)
  {
    match sa.Chat(SentimentPrompt(text))
    case Err(e) => Err(e)
    case Ok(reply) =>
      match sa.Scan(reply)
      case Err(e) => Err(e)
      case Ok(score) => Ok(score)
  }

  /** A score exists exactly when the call and the scan both succeed, and it is the scanned number unchanged. */
  lemma AnalyzeSentimentSpec(sa: SentimentAnalyzer, text: string)
    ensures AnalyzeSentiment(sa, text).Ok? <==>
      sa.Chat(SentimentPrompt(text)).Ok? && sa.Scan(sa.Chat(SentimentPrompt(text)).value).Ok?
    ensures sa.Chat(SentimentPrompt(text)).Err? ==>
      AnalyzeSentiment(sa, text) == Err(sa.Chat(SentimentPrompt(text)).error)
    ensures sa.Chat(SentimentPrompt(text)).Ok? ==>
      AnalyzeSentiment(sa, text) == sa.Scan(sa.Chat(SentimentPrompt(text)).value)
  {
  }

  /** The score is not clamped: a reply reading 3 gives the score 3. */
  lemma ScoreNotClamped(sa: SentimentAnalyzer, text: string)
    requires sa.Chat(SentimentPrompt(text)).Ok?
    requires sa.Scan(sa.Chat(SentimentPrompt(text)).value) == Ok(3.0)
    ensures AnalyzeSentiment(sa, text) == Ok(3.0)
  {
  }

  // ----- BatchAnalyzeSentiment -----

  /** The scores of all reviews in order, or the error of the first review that fails. */
  function BatchSentiment(sa: SentimentAnalyzer, reviews: seq<Review>): Result<seq<real>>
    decreases |reviews|
  {
    if |reviews| == 0 then Ok([])
    else
      match AnalyzeSentiment(sa, reviews[0].Content)
      case Err(e) => Err(e)
      case Ok(score) =>
        match BatchSentiment(sa, reviews[1..])
        case Err(e) => Err(e)
        case Ok(rest) => Ok([score] + rest)
  }

  /** Review k is the first whose analysis fails. */
  predicate FirstFailure(sa: SentimentAnalyzer, reviews: seq<Review>, k: int)
  {
    0 <= k < |reviews| && AnalyzeSentiment(sa, reviews[k].Content).Err? &&
    forall i :: 0 <= i < k ==> AnalyzeSentiment(sa, reviews[i].Content).Ok?
  }

  lemma FirstFailureUnique(sa: SentimentAnalyzer, reviews: seq<Review>, k1: int, k2: int)
    requires FirstFailure(sa, reviews, k1) && FirstFailure(sa, reviews, k2)
    ensures k1 == k2
  {
  }

  /**
   * The batch succeeds exactly when every review's analysis does, and then holds
   * each review's score at its position; otherwise it fails with the error of the
   * first review that fails.
   */
  lemma {:induction false} BatchSentimentSpec(sa: SentimentAnalyzer, reviews: seq<Review>)
    ensures BatchSentiment(sa, reviews).Ok? <==>
      forall i :: 0 <= i < |reviews| ==> AnalyzeSentiment(sa, reviews[i].Content).Ok?
    ensures BatchSentiment(sa, reviews).Ok? ==>
      |BatchSentiment(sa, reviews).value| == |reviews| &&
      forall i :: 0 <= i < |reviews| ==>
        BatchSentiment(sa, reviews).value[i] == AnalyzeSentiment(sa, reviews[i].Content).value
    ensures BatchSentiment(sa, reviews).Err? ==>
      exists k :: FirstFailure(sa, reviews, k) &&
        BatchSentiment(sa, reviews).error == AnalyzeSentiment(sa, reviews[k].Content).error
    decreases |reviews|
  {
    if |reviews| > 0 {
      var rest := reviews[1..];
      BatchSentimentSpec(sa, rest);
      assert forall i :: 1 <= i < |reviews| ==> reviews[i] == rest[i - 1];
      if AnalyzeSentiment(sa, reviews[0].Content).Err? {
        assert FirstFailure(sa, reviews, 0);
      } else if BatchSentiment(sa, rest).Err? {
        var k :| FirstFailure(sa, rest, k) &&
          BatchSentiment(sa, rest).error == AnalyzeSentiment(sa, rest[k].Content).error;
        assert FirstFailure(sa, reviews, k + 1);
      } else {
        forall i | 0 <= i < |reviews| ensures AnalyzeSentiment(sa, reviews[i].Content).Ok? {
          if i > 0 {
            assert AnalyzeSentiment(sa, rest[i - 1].Content).Ok?;
          }
        }
      }
    }
  }

  /**
   * Scores the reviews one by one into a slice of their length, stopping at the
   * first failure. `analysed` counts the analyses made: after a failure no later
   * review is analysed.
   */
  method BatchAnalyzeSentiment(sa: SentimentAnalyzer, reviews: seq<Review>)
    returns (result: Result<seq<real>>, ghost analysed: nat)
    ensures result == BatchSentiment(sa, reviews)
    ensures result.Ok? ==> analysed == |reviews|
    ensures result.Err? ==> FirstFailure(sa, reviews, analysed - 1)
  {
    var scores := new real[|reviews|];
    analysed := 0;
    for i := 0 to |reviews|
      invariant analysed == i
      invariant forall j :: 0 <= j < i ==>
        AnalyzeSentiment(sa, reviews[j].Content).Ok? && scores[j] == AnalyzeSentiment(sa, reviews[j].Content).value
    {
      var score := AnalyzeSentiment(sa, reviews[i].Content);
      analysed := analysed + 1;
      if score.Err? {
        BatchSentimentSpec(sa, reviews);
        assert FirstFailure(sa, reviews, i);
        var k :| FirstFailure(sa, reviews, k) &&
          BatchSentiment(sa, reviews).error == AnalyzeSentiment(sa, reviews[k].Content).error;
        FirstFailureUnique(sa, reviews, i, k);
        return Err(score.error), analysed;
      }
      scores[i] := score.value;
    }
    BatchSentimentSpec(sa, reviews);
    assert BatchSentiment(sa, reviews).Ok?;
    assert BatchSentiment(sa, reviews).value == scores[..];
    result := Ok(scores[..]);
  }

  // ----- ExtractKeyPhrases -----

  /** The phrases of a reply: its comma-separated pieces, each trimmed, empty ones kept. */
  function KeyPhrases(reply: string): seq<string>
  {
    var pieces := Split(reply, ',');
    seq(|pieces|, i requires 0 <= i < |pieces| => TrimSpace(pieces[i]))
  }

  /** The key phrases of a text: those of the reply, or the error of the call. */
  function KeyPhrasesOf(sa: SentimentAnalyzer, text: string): Result<seq<string>>
  {
    match sa.Chat(KeyPhrasesPrompt(text))
    case Err(e) => Err(e)
    case Ok(reply) => Ok(KeyPhrases(reply))
  }

  /** Splits the reply on commas and trims each piece in place. */
  method ExtractKeyPhrases(sa: SentimentAnalyzer, text: string) returns (r: Result<seq<string>>)
    ensures r == KeyPhrasesOf(sa, text)
    ensures r.Err? <==> sa.Chat(KeyPhrasesPrompt(text)).Err?
    ensures r.Ok? ==> |r.value| == multiset(sa.Chat(KeyPhrasesPrompt(text)).value)[','] + 1
  {
    var resp := sa.Chat(KeyPhrasesPrompt(text));
    if resp.Err? {
      return Err(resp.error);
    }
    var pieces := Split(resp.value, ',');
    var phrases := TrimPieces(pieces);
    SplitCount(resp.value, ',');
    assert phrases == KeyPhrases(resp.value);
    r := Ok(phrases);
  }

  /** The loop over the pieces: each one replaced by its trimmed form, in place. */
  method TrimPieces(pieces: seq<string>) returns (phrases: seq<string>)
    ensures |phrases| == |pieces|
    ensures forall j :: 0 <= j < |pieces| ==> phrases[j] == TrimSpace(pieces[j])
  {
    phrases := pieces;
    for i := 0 to |phrases|
      invariant |phrases| == |pieces|
      invariant forall j :: 0 <= j < i ==> phrases[j] == TrimSpace(pieces[j])
      invariant forall j :: i <= j < |phrases| ==> phrases[j] == pieces[j]
    {
      phrases := phrases[i := TrimSpace(phrases[i])];
    }
  }

  /**
   * One phrase per comma-separated piece: there is one more phrase than commas, no
   * phrase holds a comma, and each is empty or free of white space at both ends.
   */
  lemma KeyPhrasesShape(reply: string)
    ensures |KeyPhrases(reply)| == multiset(reply)[','] + 1
    ensures forall i :: 0 <= i < |KeyPhrases(reply)| ==> ',' !in KeyPhrases(reply)[i]
    ensures forall i :: 0 <= i < |KeyPhrases(reply)| ==>
      KeyPhrases(reply)[i] == "" || (!IsSpace(KeyPhrases(reply)[i][0]) && !IsSpace(KeyPhrases(reply)[i][|KeyPhrases(reply)[i]| - 1]))
  {
    var pieces := Split(reply, ',');
    SplitCount(reply, ',');
    SplitPiecesFree(reply, ',');
    forall i | 0 <= i < |pieces| ensures ',' !in KeyPhrases(reply)[i] {
      assert KeyPhrases(reply)[i] == TrimSpace(pieces[i]);
    }
  }

  /** Key phrases differ from keyword parsing only in keeping the empty pieces: the keywords are exactly the non-empty phrases. */
  lemma KeywordsAreNonEmptyPhrases(reply: string)
    ensures forall w :: w in Keywords(reply) <==> w in KeyPhrases(reply) && w != ""
  {
    var pieces := Split(reply, ',');
    CleanedOfImage(pieces, TrimSpace, KeyPhrases(reply));
  }
}
