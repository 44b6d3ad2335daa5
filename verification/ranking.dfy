/**
 * Picking the largest entries of a frequency table or of a scored list.
 *
 * The engine ranks with `sort.Slice`, which is not stable, over slices built by
 * ranging over Go maps, whose order is unspecified; so among entries with equal
 * counts any order may come out. The methods here choose a maximal entry at each
 * step, and their contracts say exactly what every such run guarantees: the right
 * number of entries, no entry twice, non-increasing scores, and nothing left out
 * that scores higher than something kept.
 */
module Ranking {

  function Min(a: int, b: int): int { if a <= b then a else b }

  /**
   * The max loop of the recommendation helpers: walk the keys in some order and
   * keep the first one whose count beats the best so far, starting from `floor`.
   * `found` says whether any key beat the floor; if none did, `best` stays "".
   */
  method Peak(dist: map<string, nat>, among: set<string>, floor: int) returns (best: string, found: bool)
    requires among <= dist.Keys
    ensures found <==> exists k :: k in among && dist[k] > floor
    ensures found ==> best in among && dist[best] > floor
    ensures found ==> forall k :: k in among ==> dist[k] <= dist[best]
    ensures !found ==> best == ""
  {
    var maxCount := floor;
    best, found := "", false;
    var rest := among;
    while rest != {}
      invariant rest <= among
      invariant found ==> best in among && dist[best] == maxCount > floor
      invariant !found ==> best == "" && maxCount == floor
      invariant forall k :: k in among && k !in rest ==> dist[k] <= maxCount
      decreases rest
    {
      var k :| k in rest;
      if dist[k] > maxCount {
        maxCount, best, found := dist[k], k, true;
      }
      rest := rest - {k};
    }
  }

  /**
   * The k keys of freq with the highest counts, highest first: the map is turned
   * into a list, sorted by descending count and cut after k entries.
   */
  method TopKeys(freq: map<string, nat>, k: nat) returns (top: seq<string>)
    ensures |top| == Min(k, |freq.Keys|)
    ensures forall i :: 0 <= i < |top| ==> top[i] in freq
    ensures forall i, j :: 0 <= i < j < |top| ==> top[i] != top[j]
    ensures forall i, j :: 0 <= i < j < |top| ==> freq[top[i]] >= freq[top[j]]
    ensures forall w, i :: w in freq && w !in top && 0 <= i < |top| ==> freq[w] <= freq[top[i]]
  {
    top := [];
    var rest := freq.Keys;
    while |top| < k && rest != {}
      invariant rest <= freq.Keys
      invariant |top| + |rest| == |freq.Keys| && |top| <= k
      invariant forall i :: 0 <= i < |top| ==> top[i] in freq && top[i] !in rest
      invariant forall w :: w in freq ==> w in rest || w in top
      invariant forall i, j :: 0 <= i < j < |top| ==> top[i] != top[j]
      invariant forall i, j :: 0 <= i < j < |top| ==> freq[top[i]] >= freq[top[j]]
      invariant forall w, i :: w in rest && 0 <= i < |top| ==> freq[w] <= freq[top[i]]
      decreases rest
    {
      var w, _ := Peak(freq, rest, -1);
      top := top + [w];
      rest := rest - {w};
    }
  }

  /** The index of an element of maximal score (the first one, scanning left to right). */
  method MaxIndex<T>(xs: seq<T>, score: T -> real) returns (m: nat)
    requires |xs| > 0
    ensures m < |xs|
    ensures forall i :: 0 <= i < |xs| ==> score(xs[i]) <= score(xs[m])
  {
    m := 0;
    for i := 1 to |xs|
      invariant m < |xs|
      invariant forall j :: 0 <= j < i ==> score(xs[j]) <= score(xs[m])
    {
      if score(xs[i]) > score(xs[m]) {
        m := i;
      }
    }
  }

  /**
   * The k elements of xs with the highest scores, highest first: the slice is
   * sorted by descending score and cut after k entries.
   */
  method TopBy<T>(xs: seq<T>, score: T -> real, k: nat) returns (top: seq<T>)
    ensures |top| == Min(k, |xs|)
    ensures multiset(top) <= multiset(xs)
    ensures forall i, j :: 0 <= i < j < |top| ==> score(top[i]) >= score(top[j])
    ensures forall x, i :: x in multiset(xs) - multiset(top) && 0 <= i < |top| ==> score(x) <= score(top[i])
  {
    top := [];
    var rest := xs;
    while |top| < k && rest != []
      invariant multiset(top) + multiset(rest) == multiset(xs)
      invariant |top| + |rest| == |xs| && |top| <= k
      invariant forall i, j :: 0 <= i < j < |top| ==> score(top[i]) >= score(top[j])
      invariant forall a, i :: 0 <= a < |rest| && 0 <= i < |top| ==> score(rest[a]) <= score(top[i])
      decreases |rest|
    {
      var m := MaxIndex(rest, score);
      SelectStep(top, rest, m, score, top + [rest[m]], rest[..m] + rest[m + 1..]);
      top, rest := top + [rest[m]], rest[..m] + rest[m + 1..];
    }
    assert multiset(xs) - multiset(top) == multiset(rest);
  }

  /** Moving a maximal element of rest to the end of top keeps the selection invariants. */
  lemma SelectStep<T>(top: seq<T>, rest: seq<T>, m: nat, score: T -> real, top': seq<T>, rest': seq<T>)
    requires m < |rest| && top' == top + [rest[m]] && rest' == rest[..m] + rest[m + 1..]
    requires forall a :: 0 <= a < |rest| ==> score(rest[a]) <= score(rest[m])
    requires forall i, j :: 0 <= i < j < |top| ==> score(top[i]) >= score(top[j])
    requires forall a, i :: 0 <= a < |rest| && 0 <= i < |top| ==> score(rest[a]) <= score(top[i])
    ensures multiset(top') + multiset(rest') == multiset(top) + multiset(rest)
    ensures forall i, j :: 0 <= i < j < |top'| ==> score(top'[i]) >= score(top'[j])
    ensures forall a, i :: 0 <= a < |rest'| && 0 <= i < |top'| ==> score(rest'[a]) <= score(top'[i])
  {
    assert rest == rest[..m] + [rest[m]] + rest[m + 1..];
    forall a, i | 0 <= a < |rest'| && 0 <= i < |top'|
      ensures score(rest'[a]) <= score(top'[i])
    {
      var b := if a < m then a else a + 1;
      assert rest'[a] == rest[b];
      if i == |top| {
        assert top'[i] == rest[m];
      } else {
        assert top'[i] == top[i];
      }
    }
  }
}
