/**
 * Keyword-list parsing and the plain mean of a score list
 * (services/ai/utils/parsing.go).
 */
module Parsing {
  import opened Strings
  import opened Stats

  /** The keywords of a comma-separated list: trimmed, non-empty pieces, in order. */
  function Keywords(text: string): seq<string>
  {
    Cleaned(Split(text, ','), TrimSpace)
  }

  /** Keyword parsing: the loop over the comma-separated pieces of text. */
  method ParseKeywords(text: string) returns (result: seq<string>)
    ensures result == Keywords(text)
    ensures forall i :: 0 <= i < |result| ==> result[i] != ""
    ensures forall i :: 0 <= i < |result| ==> !IsSpace(result[i][0]) && !IsSpace(result[i][|result[i]| - 1])
    ensures forall i :: 0 <= i < |result| ==> ',' !in result[i]
    ensures |result| <= multiset(text)[','] + 1
  {
    var keywords := Split(text, ',');
    result := TrimKeywords(keywords);
    KeywordsShape(text);
    SplitCount(text, ',');
  }

  /** The loop over the pieces: trim each, keep it if anything is left. */
  method TrimKeywords(keywords: seq<string>) returns (result: seq<string>)
    ensures result == Cleaned(keywords, TrimSpace)
  {
    result := [];
    for n := 0 to |keywords|
      invariant result == Cleaned(keywords[..n], TrimSpace)
    {
      CleanedPrefix(keywords, n, TrimSpace);
      var keyword := TrimSpace(keywords[n]);
      if keyword != "" {
        result := result + [keyword];
      }
    }
    assert keywords[..|keywords|] == keywords;
  }

  /**
   * Every keyword is a trimmed piece between commas: it has no comma, and it
   * neither starts nor ends with white space.
   */
  lemma KeywordsShape(text: string)
    ensures forall i :: 0 <= i < |Keywords(text)| ==> ',' !in Keywords(text)[i]
    ensures forall i :: 0 <= i < |Keywords(text)| ==>
      !IsSpace(Keywords(text)[i][0]) && !IsSpace(Keywords(text)[i][|Keywords(text)[i]| - 1])
  {
    var pieces := Split(text, ',');
    SplitPiecesFree(text, ',');
    CleanedFrom(pieces, TrimSpace);
    forall i | 0 <= i < |Keywords(text)|
      ensures ',' !in Keywords(text)[i]
      ensures !IsSpace(Keywords(text)[i][0]) && !IsSpace(Keywords(text)[i][|Keywords(text)[i]| - 1])
    {
      var j :| 0 <= j < |pieces| && Keywords(text)[i] == TrimSpace(pieces[j]);
    }
  }

  /** Keywords of a list joined from comma-free parts are the trimmed, non-empty parts themselves. */
  lemma KeywordsOfJoin(parts: seq<string>)
    requires |parts| >= 1
    requires forall i :: 0 <= i < |parts| ==> ',' !in parts[i]
    ensures Keywords(Join(parts, ',')) == Cleaned(parts, TrimSpace)
  {
    SplitJoin(parts, ',');
  }

  /** Keywords of two lists joined by a comma are the keywords of the first, then those of the second. */
  lemma KeywordsConcat(a: string, b: string)
    ensures Keywords(a + "," + b) == Keywords(a) + Keywords(b)
  {
    SplitConcat(a, b, ',');
    CleanedAppend(Split(a, ','), Split(b, ','), TrimSpace);
  }

  function Value(x: real): real { x }

  /** The mean of the scores; 0 for no scores. */
  method CalculateAverageScore(scores: seq<real>) returns (avg: real)
    ensures avg == Mean(scores, Value)
    ensures |scores| == 0 ==> avg == 0.0
    ensures |scores| > 0 ==> avg * (|scores| as real) == SumOf(scores, Value)
  {
    if |scores| == 0 {
      return 0.0;
    }
    var sum := 0.0;
    for n := 0 to |scores|
      invariant sum == SumOf(scores[..n], Value)
    {
      assert scores[..n + 1][..n] == scores[..n];
      sum := sum + scores[n];
    }
    assert scores[..|scores|] == scores;
    avg := sum / (|scores| as real);
  }
}
