/**
 * The parts of Go's `strings` package the engine uses: Split on a one-character
 * separator, TrimSpace and TrimLeft. Strings are sequences of Unicode scalars.
 */
module Strings {

  /** Go's unicode.IsSpace: the Latin-1 spaces and the other White_Space characters. */
  predicate IsSpace(c: char)
  {
    c == ' ' || c == '\t' || c == '\n' || c == '\U{B}' || c == '\U{C}' || c == '\r'
    || c == '\U{85}' || c == '\U{A0}' || c == '\U{1680}'
    || ('\U{2000}' <= c <= '\U{200A}')
    || c == '\U{2028}' || c == '\U{2029}' || c == '\U{202F}' || c == '\U{205F}' || c == '\U{3000}'
  }

  /**
   * strings.Split(s, sep) for a one-character separator: the pieces between
   * separators, so an empty input gives one empty piece.
   */
  function Split(s: string, sep: char): (parts: seq<string>)
    ensures |parts| >= 1
  {
    if s == [] then [""]
    else
      var rest := Split(s[1..], sep);
      if s[0] == sep then [""] + rest else [[s[0]] + rest[0]] + rest[1..]
  }

  /** strings.Join(parts, sep): the inverse of Split. */
  function Join(parts: seq<string>, sep: char): string
  {
    if |parts| == 0 then ""
    else if |parts| == 1 then parts[0]
    else parts[0] + [sep] + Join(parts[1..], sep)
  }

  /** Split yields one piece more than there are separators. */
  lemma {:induction false} SplitCount(s: string, sep: char)
    ensures |Split(s, sep)| == multiset(s)[sep] + 1
  {
    if s != [] {
      assert s == [s[0]] + s[1..];
      SplitCount(s[1..], sep);
    }
  }

  /** No piece contains the separator. */
  lemma {:induction false} SplitPiecesFree(s: string, sep: char)
    ensures forall i :: 0 <= i < |Split(s, sep)| ==> sep !in Split(s, sep)[i]
  {
    if s != [] {
      SplitPiecesFree(s[1..], sep);
    }
  }

  /** Joining the pieces with the separator gives back the input. */
  lemma {:induction false} JoinSplit(s: string, sep: char)
    ensures Join(Split(s, sep), sep) == s
  {
    if s != [] {
      var rest := Split(s[1..], sep);
      JoinSplit(s[1..], sep);
      if s[0] == sep {
        assert ([""] + rest)[1..] == rest;
      } else {
        var parts := [[s[0]] + rest[0]] + rest[1..];
        if |rest| > 1 {
          assert parts[1..] == rest[1..];
        }
      }
    }
  }

  lemma {:induction false} SplitFreePrefix(a: string, b: string, sep: char)
    requires sep !in a
    ensures Split(a + b, sep) == [a + Split(b, sep)[0]] + Split(b, sep)[1..]
  {
    var sb := Split(b, sep);
    if a == [] {
      assert a + b == b && a + sb[0] == sb[0];
      assert sb == [sb[0]] + sb[1..];
    } else {
      assert a[0] in a;
      assert (a + b)[0] == a[0] && (a + b)[1..] == a[1..] + b;
      assert sep !in a[1..] by {
        forall i | 0 <= i < |a[1..]| ensures a[1..][i] != sep { assert a[1..][i] in a; }
      }
      SplitFreePrefix(a[1..], b, sep);
      var rest := Split(a[1..] + b, sep);
      assert rest == [a[1..] + sb[0]] + sb[1..];
      assert Split(a + b, sep) == [[a[0]] + rest[0]] + rest[1..];
      assert [a[0]] + (a[1..] + sb[0]) == a + sb[0];
    }
  }

  /** Splitting at a separator between two strings splits each of them in turn. */
  lemma {:induction false} SplitConcat(a: string, b: string, sep: char)
    ensures Split(a + [sep] + b, sep) == Split(a, sep) + Split(b, sep)
    decreases |a|
  {
    var s := a + [sep] + b;
    if a == [] {
      assert s == [sep] + b && s[1..] == b;
    } else {
      assert s[0] == a[0] && s[1..] == a[1..] + [sep] + b;
      SplitConcat(a[1..], b, sep);
      var ra := Split(a[1..], sep);
      var rest := ra + Split(b, sep);
      if a[0] != sep {
        assert rest[0] == ra[0] && rest[1..] == ra[1..] + Split(b, sep);
      }
    }
  }

  /** Splitting a join of separator-free pieces gives back the pieces. */
  lemma {:induction false} SplitJoin(parts: seq<string>, sep: char)
    requires |parts| >= 1
    requires forall i :: 0 <= i < |parts| ==> sep !in parts[i]
    ensures Split(Join(parts, sep), sep) == parts
  {
    if |parts| == 1 {
      SplitFreePrefix(parts[0], "", sep);
      assert parts[0] + "" == parts[0];
    } else {
      var tail := Join(parts[1..], sep);
      SplitJoin(parts[1..], sep);
      assert Split([sep] + tail, sep) == [""] + Split(tail, sep);
      SplitFreePrefix(parts[0], [sep] + tail, sep);
      assert Join(parts, sep) == parts[0] + ([sep] + tail);
      assert parts[0] + "" == parts[0];
      assert parts == [parts[0]] + parts[1..];
    }
  }

  /** The length of the longest prefix of s made of cutset characters, scanning on from k. */
  function CutPrefixLength(s: string, cutset: string, k: nat): (n: nat)
    requires k <= |s|
    requires forall i :: 0 <= i < k ==> s[i] in cutset
    ensures k <= n <= |s|
    ensures forall i :: 0 <= i < n ==> s[i] in cutset
    ensures n == |s| || s[n] !in cutset
    decreases |s| - k
  {
    if k < |s| && s[k] in cutset then CutPrefixLength(s, cutset, k + 1) else k
  }

  /** strings.TrimLeft(s, cutset): drops the longest prefix made of cutset characters. */
  function TrimLeft(s: string, cutset: string): (r: string)
    ensures |r| <= |s| && r == s[|s| - |r|..]
    ensures forall i :: 0 <= i < |s| - |r| ==> s[i] in cutset
    ensures r == [] || r[0] !in cutset
  {
    s[CutPrefixLength(s, cutset, 0)..]
  }

  /** The length of the longest all-space prefix of s, scanning on from k. */
  function SpacePrefixLength(s: string, k: nat): (n: nat)
    requires k <= |s|
    requires forall i :: 0 <= i < k ==> IsSpace(s[i])
    ensures k <= n <= |s|
    ensures forall i :: 0 <= i < n ==> IsSpace(s[i])
    ensures n == |s| || !IsSpace(s[n])
    decreases |s| - k
  {
    if k < |s| && IsSpace(s[k]) then SpacePrefixLength(s, k + 1) else k
  }

  /** A non-empty suffix of s ends where s ends. */
  lemma SuffixLast(s: string, r: string)
    requires |r| <= |s| && r == s[|s| - |r|..]
    ensures r != [] ==> r[|r| - 1] == s[|s| - 1]
  {
  }

  /** Drops the longest all-space prefix. */
  function TrimLeadingSpace(s: string): (r: string)
    ensures |r| <= |s| && r == s[|s| - |r|..]
    ensures forall i :: 0 <= i < |s| - |r| ==> IsSpace(s[i])
    ensures r == [] || !IsSpace(r[0])
  {
    s[SpacePrefixLength(s, 0)..]
  }

  /** Where the longest all-space suffix of s starts, scanning back from k. */
  function SpaceSuffixStart(s: string, k: nat): (n: nat)
    requires k <= |s|
    requires forall i :: k <= i < |s| ==> IsSpace(s[i])
    ensures n <= k
    ensures forall i :: n <= i < |s| ==> IsSpace(s[i])
    ensures n == 0 || !IsSpace(s[n - 1])
  {
    if k > 0 && IsSpace(s[k - 1]) then SpaceSuffixStart(s, k - 1) else k
  }

  /** Drops the longest all-space suffix. */
  function TrimTrailingSpace(s: string): (r: string)
    ensures |r| <= |s| && r == s[..|r|]
    ensures forall i :: |r| <= i < |s| ==> IsSpace(s[i])
    ensures r == [] || !IsSpace(r[|r| - 1])
  {
    s[..SpaceSuffixStart(s, |s|)]
  }

  /**
   * strings.TrimSpace: the infix of s left after removing leading and trailing
   * white space; empty exactly when s is all white space.
   */
  function TrimSpace(s: string): (r: string)
    ensures r == [] || (!IsSpace(r[0]) && !IsSpace(r[|r| - 1]))
    ensures forall c :: c in r ==> c in s
    ensures r == [] <==> forall i :: 0 <= i < |s| ==> IsSpace(s[i])
    ensures exists i, j :: 0 <= i <= j <= |s| && r == s[i..j] &&
                           (forall k :: 0 <= k < i ==> IsSpace(s[k])) &&
                           (forall k :: j <= k < |s| ==> IsSpace(s[k]))
  {
    TrimBothEnds(s);
    TrimInfix(s);
    TrimTrailingSpace(TrimLeadingSpace(s))
  }

  /** Trimming keeps the infix between an all-space prefix and an all-space suffix. */
  lemma TrimInfix(s: string)
    ensures var r := TrimTrailingSpace(TrimLeadingSpace(s));
            exists i, j :: 0 <= i <= j <= |s| && r == s[i..j] &&
              (forall k :: 0 <= k < i ==> IsSpace(s[k])) && (forall k :: j <= k < |s| ==> IsSpace(s[k]))
  {
    var lead := TrimLeadingSpace(s);
    var r := TrimTrailingSpace(lead);
    var i := |s| - |lead|;
    var j := i + |r|;
    assert r == s[i..j];
    forall k | j <= k < |s| ensures IsSpace(s[k]) {
      assert s[k] == lead[k - i];
    }
  }

  lemma TrimBothEnds(s: string)
    ensures var r := TrimTrailingSpace(TrimLeadingSpace(s));
            && (forall c :: c in r ==> c in s)
            && (r == [] <==> forall i :: 0 <= i < |s| ==> IsSpace(s[i]))
  {
    var lead := TrimLeadingSpace(s);
    var r := TrimTrailingSpace(lead);
    var k := |s| - |lead|;
    SliceChars(lead, 0, |r|);
    SliceChars(s, k, |s|);
    if r == [] {
      AllSpace(s, k, lead);
    } else {
      assert !IsSpace(s[k]) by { assert s[k] == lead[0] == r[0]; }
    }
  }

  lemma SliceChars(s: string, lo: nat, hi: nat)
    requires lo <= hi <= |s|
    ensures forall c :: c in s[lo..hi] ==> c in s
  {
    forall c | c in s[lo..hi] ensures c in s {
      var i :| 0 <= i < hi - lo && s[lo..hi][i] == c;
      assert s[lo + i] == c;
    }
  }

  lemma AllSpace(s: string, k: nat, lead: string)
    requires k <= |s| && lead == s[k..]
    requires forall i :: 0 <= i < k ==> IsSpace(s[i])
    requires forall i :: 0 <= i < |lead| ==> IsSpace(lead[i])
    ensures forall i :: 0 <= i < |s| ==> IsSpace(s[i])
  {
    forall i | 0 <= i < |s| ensures IsSpace(s[i]) {
      if i >= k { assert lead[i - k] == s[i]; }
    }
  }

  /**
   * The loop shape `for each piece: piece = clean(piece); if piece != "" append`:
   * the cleaned pieces with the empty ones dropped, in order.
   */
  function Cleaned(pieces: seq<string>, clean: string -> string): (r: seq<string>)
    ensures |r| <= |pieces|
    ensures forall i :: 0 <= i < |r| ==> r[i] != ""
    decreases |pieces|
  {
    if |pieces| == 0 then []
    else
      var init := Cleaned(pieces[..|pieces| - 1], clean);
      var t := clean(pieces[|pieces| - 1]);
      if t == "" then init else init + [t]
  }

  /** Cleaning works piece by piece, so the surviving pieces keep their relative order. */
  lemma {:induction false} CleanedAppend(a: seq<string>, b: seq<string>, clean: string -> string)
    ensures Cleaned(a + b, clean) == Cleaned(a, clean) + Cleaned(b, clean)
    decreases |b|
  {
    if |b| == 0 {
      assert a + b == a;
    } else {
      var b' := b[..|b| - 1];
      assert (a + b)[..|a + b| - 1] == a + b';
      assert (a + b)[|a + b| - 1] == b[|b| - 1];
      CleanedAppend(a, b', clean);
    }
  }

  /** Each surviving piece is the cleaning of some input piece. */
  lemma {:induction false} CleanedFrom(pieces: seq<string>, clean: string -> string)
    ensures forall i :: 0 <= i < |Cleaned(pieces, clean)| ==>
      exists j :: 0 <= j < |pieces| && Cleaned(pieces, clean)[i] == clean(pieces[j])
    decreases |pieces|
  {
    if |pieces| > 0 {
      var init := pieces[..|pieces| - 1];
      CleanedFrom(init, clean);
      var r := Cleaned(pieces, clean);
      var t := clean(pieces[|pieces| - 1]);
      assert r == if t == "" then Cleaned(init, clean) else Cleaned(init, clean) + [t];
      forall i | 0 <= i < |r| ensures exists j :: 0 <= j < |pieces| && r[i] == clean(pieces[j]) {
        if i < |Cleaned(init, clean)| {
          var j :| 0 <= j < |init| && Cleaned(init, clean)[i] == clean(init[j]);
          assert init[j] == pieces[j];
        } else {
          assert r[i] == clean(pieces[|pieces| - 1]);
        }
      }
    } else {
      assert Cleaned(pieces, clean) == [];
    }
  }

  /** Every piece whose cleaning is not empty survives. */
  lemma {:induction false} CleanedHas(pieces: seq<string>, clean: string -> string)
    ensures forall j :: 0 <= j < |pieces| && clean(pieces[j]) != "" ==> clean(pieces[j]) in Cleaned(pieces, clean)
    decreases |pieces|
  {
    if |pieces| > 0 {
      var init := pieces[..|pieces| - 1];
      CleanedHas(init, clean);
      forall j | 0 <= j < |pieces| && clean(pieces[j]) != "" ensures clean(pieces[j]) in Cleaned(pieces, clean) {
        if j < |init| {
          assert init[j] == pieces[j];
        }
      }
    }
  }

  /** Given the cleaning of every piece, the survivors are exactly its non-empty entries. */
  lemma CleanedOfImage(pieces: seq<string>, clean: string -> string, image: seq<string>)
    requires |image| == |pieces|
    requires forall j :: 0 <= j < |pieces| ==> image[j] == clean(pieces[j])
    ensures forall w :: w in Cleaned(pieces, clean) <==> w in image && w != ""
  {
    CleanedFrom(pieces, clean);
    CleanedHas(pieces, clean);
    var r := Cleaned(pieces, clean);
    forall w | w in r ensures w in image {
      var i :| 0 <= i < |r| && r[i] == w;
      var j :| 0 <= j < |pieces| && r[i] == clean(pieces[j]);
      assert image[j] == w;
    }
  }

  /** Cleaning one more piece of a prefix adds that piece's cleaning at the end, unless it is empty. */
  lemma CleanedPrefix(pieces: seq<string>, n: nat, clean: string -> string)
    requires n < |pieces|
    ensures Cleaned(pieces[..n + 1], clean) ==
      Cleaned(pieces[..n], clean) + (if clean(pieces[n]) == "" then [] else [clean(pieces[n])])
  {
    assert pieces[..n + 1][..n] == pieces[..n];
  }

  /** A single piece survives exactly when its cleaning is not empty. */
  lemma CleanedSingle(p: string, clean: string -> string)
    ensures Cleaned([p], clean) == if clean(p) == "" then [] else [clean(p)]
  {
    assert [p][..0] == [];
  }
}
