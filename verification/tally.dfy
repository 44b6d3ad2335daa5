/**
 * Frequency tables, as the engine builds them with `freq[key]++` over a list of
 * keys: a map from each key to the number of times it occurs.
 */
module Tally {

  /** `m[k]++` on a Go map whose missing entries read as 0. */
  function Bump(m: map<string, nat>, k: string): (r: map<string, nat>)
  {
    m[k := if k in m then m[k] + 1 else 1]
  }

  /** The table `freq[k]++` produces over xs, in order: each key of xs with its number of occurrences. */
  function Histogram(xs: seq<string>): map<string, nat>
    decreases |xs|
  {
    if |xs| == 0 then map[] else Bump(Histogram(xs[..|xs| - 1]), xs[|xs| - 1])
  }

  /** The table has a key exactly for each element of xs, counting its occurrences. */
  lemma {:induction false} HistogramSpec(xs: seq<string>)
    ensures forall k :: k in Histogram(xs) <==> k in xs
    ensures forall k :: k in Histogram(xs) ==> Histogram(xs)[k] == multiset(xs)[k] > 0
    decreases |xs|
  {
    if |xs| > 0 {
      var init := xs[..|xs| - 1];
      assert xs == init + [xs[|xs| - 1]];
      HistogramSpec(init);
    }
  }

  /** The sum of the values of m over the given keys. */
  ghost function SumValues(m: map<string, nat>, keys: set<string>): nat
    requires keys <= m.Keys
    decreases keys
  {
    if keys == {} then 0 else var k :| k in keys; m[k] + SumValues(m, keys - {k})
  }

  /** The sum of all the counts in a table. */
  ghost function Total(m: map<string, nat>): nat
  {
    SumValues(m, m.Keys)
  }

  /** Any key can be taken out of the sum first. */
  lemma {:induction false} SumValuesRemove(m: map<string, nat>, keys: set<string>, k: string)
    requires keys <= m.Keys && k in keys
    ensures SumValues(m, keys) == m[k] + SumValues(m, keys - {k})
    decreases keys
  {
    var j :| j in keys && SumValues(m, keys) == m[j] + SumValues(m, keys - {j});
    if j != k {
      SumValuesRemove(m, keys - {j}, k);
      SumValuesRemove(m, keys - {k}, j);
      assert keys - {j} - {k} == keys - {k} - {j};
    }
  }

  /** The sum only depends on the values at the keys summed over. */
  lemma {:induction false} SumValuesAgree(m1: map<string, nat>, m2: map<string, nat>, keys: set<string>)
    requires keys <= m1.Keys && keys <= m2.Keys
    requires forall k :: k in keys ==> m1[k] == m2[k]
    ensures SumValues(m1, keys) == SumValues(m2, keys)
    decreases keys
  {
    if keys != {} {
      var j :| j in keys && SumValues(m1, keys) == m1[j] + SumValues(m1, keys - {j});
      SumValuesRemove(m2, keys, j);
      SumValuesAgree(m1, m2, keys - {j});
    }
  }

  /** One increment adds one to the total. */
  lemma TotalBump(m: map<string, nat>, k: string)
    ensures Total(Bump(m, k)) == Total(m) + 1
  {
    var b := Bump(m, k);
    assert b.Keys == m.Keys + {k};
    SumValuesRemove(b, b.Keys, k);
    assert b.Keys - {k} == m.Keys - {k};
    SumValuesAgree(b, m, m.Keys - {k});
    if k in m {
      SumValuesRemove(m, m.Keys, k);
    } else {
      assert m.Keys - {k} == m.Keys;
    }
  }

  /** The counts of a table built over xs add up to the length of xs. */
  lemma {:induction false} TotalHistogram(xs: seq<string>)
    ensures Total(Histogram(xs)) == |xs|
    decreases |xs|
  {
    if |xs| > 0 {
      TotalHistogram(xs[..|xs| - 1]);
      TotalBump(Histogram(xs[..|xs| - 1]), xs[|xs| - 1]);
    }
  }

  /** Tallying xs + ys is tallying xs and then carrying on with ys. */
  lemma HistogramSnoc(xs: seq<string>, x: string)
    ensures Histogram(xs + [x]) == Bump(Histogram(xs), x)
  {
    assert (xs + [x])[..|xs + [x]| - 1] == xs;
  }

  /** The `freq[word]++` loop over a list of words: a table of `before` extended by `words`. */
  method CountInto(keywordFreq: map<string, nat>, ghost before: seq<string>, words: seq<string>)
    returns (freq: map<string, nat>)
    requires keywordFreq == Histogram(before)
    ensures freq == Histogram(before + words)
  {
    freq := keywordFreq;
    assert before + words[..0] == before;
    for m := 0 to |words|
      invariant freq == Histogram(before + words[..m])
    {
      var word := words[m];
      HistogramSnoc(before + words[..m], word);
      assert before + words[..m + 1] == (before + words[..m]) + [word];
      freq := Bump(freq, word);
    }
    assert words[..|words|] == words;
  }
}
