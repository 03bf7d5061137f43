/**
 * The string splitter `split(sv, delimiter)` of surface_viewer.cpp and slice_direction.cpp
 * (the two copies are identical), together with the `string_view::find` it is built on.
 *
 * `Split` is the specification: a recursive function that follows the loop's cut points.
 * `SplitTokens` is the loop itself, proved equal to `Split`. The lemmas state what the
 * tokens are: never empty, free of the delimiter, in input order (their concatenation is the
 * input with the delimiters deleted), and, for a one-character delimiter, the inverse of `Join`.
 */
module Tokenizer {
  import opened Optional

  /** `d` occurs in `s` starting at index `p`. */
  predicate OccursAt(s: string, d: string, p: nat) {
    p + |d| <= |s| && s[p..p + |d|] == d
  }

  /** `s` contains `d` somewhere. */
  predicate Contains(s: string, d: string) {
    exists p: nat | p <= |s| :: OccursAt(s, d, p)
  }

  /** `s.find(d, i)`: the leftmost occurrence of `d` at or after `i`, or `None` for `npos`. */
  function FindFrom(s: string, d: string, i: nat): (r: Option<nat>)
    requires i <= |s|
    decreases |s| - i
    ensures r.Some? ==> i <= r.value <= |s| && OccursAt(s, d, r.value)
    ensures r.Some? ==> forall q: nat :: i <= q < r.value ==> !OccursAt(s, d, q)
    ensures r.None? ==> forall q: nat :: i <= q ==> !OccursAt(s, d, q)
  {
    if OccursAt(s, d, i) then Some(i)
    else if i == |s| then None
    else FindFrom(s, d, i + 1)
  }

  /** `s.find(d)`. */
  function Find(s: string, d: string): Option<nat> {
    FindFrom(s, d, 0)
  }

  /**
   * The tokens of `split(s, d)`: cut at the leftmost occurrence of `d`, keep the piece before
   * it unless it is empty, and go on after the delimiter; a non-empty remainder is the last
   * token. The delimiter must be non-empty: `find("")` is 0, so the loop would never advance.
   */
  function Split(s: string, d: string): seq<string>
    requires |d| > 0
    decreases |s|
  {
    match Find(s, d)
    case None => if s == [] then [] else [s]
    case Some(p) =>
      var rest := Split(s[p + |d|..], d);
      if p == 0 then rest else [s[..p]] + rest
  }

  /** Every token is non-empty and free of the delimiter. */
  lemma {:induction false} SplitTokensClean(s: string, d: string)
    requires |d| > 0
    decreases |s|
    ensures forall k :: 0 <= k < |Split(s, d)| ==> |Split(s, d)[k]| > 0 && !Contains(Split(s, d)[k], d)
  {
    match Find(s, d)
    case None =>
      NoOccurrenceNotContained(s, d, |s|);
      assert s[..|s|] == s;
    case Some(p) =>
      SplitTokensClean(s[p + |d|..], d);
      if p > 0 {
        NoOccurrenceNotContained(s, d, p);
        var ts := [s[..p]] + Split(s[p + |d|..], d);
        assert forall k :: 1 <= k < |ts| ==> ts[k] == Split(s[p + |d|..], d)[k - 1];
      }
  }

  /** If `d` does not start anywhere before `n` in `s`, the prefix `s[..n]` does not contain it. */
  lemma NoOccurrenceNotContained(s: string, d: string, n: nat)
    requires |d| > 0 && n <= |s|
    requires forall q: nat :: q < n ==> !OccursAt(s, d, q)
    ensures !Contains(s[..n], d)
  {
    forall q: nat | OccursAt(s[..n], d, q)
      ensures false
    {
      assert s[..n][q..q + |d|] == s[q..q + |d|];
      assert OccursAt(s, d, q);
    }
  }

  /** The `while` loop of `split`, reassigning the view `sv` and appending to `tokens`. */
  method SplitTokens(s: string, d: string) returns (tokens: seq<string>)
    requires |d| > 0
    ensures tokens == Split(s, d)
  {
    tokens := [];
    var sv := s;
    var pos := Find(sv, d);
    while pos.Some?
      invariant tokens + Split(sv, d) == Split(s, d)
      invariant pos == Find(sv, d)
      decreases |sv|
    {
      var token := sv[..pos.value];
      if token != [] {
        tokens := tokens + [token];
      }
      sv := sv[pos.value + |d|..];
      pos := Find(sv, d);
    }
    if sv != [] {
      tokens := tokens + [sv];
    }
  }

  /** With an empty delimiter `find` answers 0 and the view is not shortened: no progress. */
  lemma EmptyDelimiterMakesNoProgress(s: string)
    ensures Find(s, "") == Some(0)
    ensures s[0 + |""|..] == s
  {
    assert OccursAt(s, "", 0);
  }

  /** Splitting the empty string gives no tokens. */
  lemma SplitEmpty(d: string)
    requires |d| > 0
    ensures Split("", d) == []
  {
    assert !OccursAt("", d, 0);
  }

  /** A non-empty string without the delimiter is a single token. */
  lemma SplitWithoutDelimiter(s: string, d: string)
    requires |d| > 0 && |s| > 0 && !Contains(s, d)
    ensures Split(s, d) == [s]
  {
  }

  /** `a d b` splits into `a` followed by the tokens of `b` when `d` first occurs right after `a`. */
  lemma {:induction false} SplitFirst(a: string, d: string, b: string)
    requires |d| > 0 && |a| > 0
    requires forall q: nat :: q < |a| ==> !OccursAt(a + d + b, d, q)
    ensures Split(a + d + b, d) == [a] + Split(b, d)
  {
    var s := a + d + b;
    assert s[|a|..|a| + |d|] == d;
    assert OccursAt(s, d, |a|);
    assert Find(s, d) == Some(|a|);
    assert s[..|a|] == a;
    assert s[|a| + |d|..] == b;
  }

  /** For a one-character delimiter, an occurrence is just that character. */
  lemma OccursAtChar(s: string, c: char, q: nat)
    ensures OccursAt(s, [c], q) <==> q < |s| && s[q] == c
  {
    if q < |s| {
      assert s[q..q + 1] == [s[q]];
    }
  }

  /** A string without the first character of `d` does not contain `d`. */
  lemma LacksFirstChar(s: string, d: string)
    requires |d| > 0 && d[0] !in s
    ensures !Contains(s, d)
  {
    forall p: nat | p <= |s|
      ensures !OccursAt(s, d, p)
    {
      if p + |d| <= |s| {
        assert s[p..p + |d|][0] == s[p];
      }
    }
  }

  /** A non-empty piece without the character `c`, followed by `c`, is the first token. */
  lemma SplitAtChar(a: string, c: char, rest: string)
    requires |a| > 0 && c !in a
    ensures Split(a + [c] + rest, [c]) == [a] + Split(rest, [c])
  {
    forall q: nat | q < |a|
      ensures !OccursAt(a + [c] + rest, [c], q)
    {
      OccursAtChar(a + [c] + rest, c, q);
      assert (a + [c] + rest)[q] == a[q];
    }
    SplitFirst(a, [c], rest);
  }

  /** A non-empty piece without the character `c` is a single token. */
  lemma SplitNoChar(a: string, c: char)
    requires |a| > 0 && c !in a
    ensures Split(a, [c]) == [a]
  {
    forall p: nat | OccursAt(a, [c], p)
      ensures false
    {
      OccursAtChar(a, c, p);
    }
    SplitWithoutDelimiter(a, [c]);
  }

  /** `ts` joined with `d` between consecutive items. */
  function Join(ts: seq<string>, d: string): string {
    if |ts| == 0 then []
    else if |ts| == 1 then ts[0]
    else ts[0] + d + Join(ts[1..], d)
  }

  /**
   * Round trip for a one-character delimiter: non-empty pieces that do not contain it are
   * recovered exactly by splitting their join.
   */
  lemma {:induction false} SplitJoin(ts: seq<string>, c: char)
    requires forall k :: 0 <= k < |ts| ==> |ts[k]| > 0 && c !in ts[k]
    ensures Split(Join(ts, [c]), [c]) == ts
  {
    if |ts| == 0 {
      SplitEmpty([c]);
    } else if |ts| == 1 {
      SplitNoChar(ts[0], c);
    } else {
      var rest := Join(ts[1..], [c]);
      SplitAtChar(ts[0], c, rest);
      SplitJoin(ts[1..], c);
      assert [ts[0]] + ts[1..] == ts;
    }
  }

  /** The tokens written one after another. */
  function Concat(ts: seq<string>): string {
    if ts == [] then [] else ts[0] + Concat(ts[1..])
  }

  /**
   * An independent reading of what `split` drops: scan left to right and delete each
   * occurrence of `d` found, resuming after it (leftmost, non-overlapping occurrences).
   */
  function DeleteDelimiters(s: string, d: string): string
    requires |d| > 0
    decreases |s|
  {
    if |s| == 0 then []
    else if OccursAt(s, d, 0) then DeleteDelimiters(s[|d|..], d)
    else [s[0]] + DeleteDelimiters(s[1..], d)
  }

  lemma OccursAtShift(s: string, d: string, q: nat)
    requires |s| > 0
    ensures OccursAt(s[1..], d, q) <==> OccursAt(s, d, q + 1)
  {
    if q + |d| <= |s| - 1 {
      assert s[1..][q..q + |d|] == s[q + 1..q + 1 + |d|];
    }
  }

  /** Deleting delimiters does not touch a prefix in which no occurrence starts. */
  lemma {:induction false} DeleteKeepsPrefix(s: string, d: string, p: nat)
    requires |d| > 0 && p <= |s|
    requires forall q: nat :: q < p ==> !OccursAt(s, d, q)
    ensures DeleteDelimiters(s, d) == s[..p] + DeleteDelimiters(s[p..], d)
  {
    if p > 0 {
      assert !OccursAt(s, d, 0);
      forall q: nat | q < p - 1
        ensures !OccursAt(s[1..], d, q)
      {
        OccursAtShift(s, d, q);
      }
      DeleteKeepsPrefix(s[1..], d, p - 1);
      assert s[1..][p - 1..] == s[p..];
      assert [s[0]] + s[1..][..p - 1] == s[..p];
    }
  }

  /** The tokens, concatenated, are the input with every leftmost non-overlapping delimiter deleted. */
  lemma {:induction false} SplitConcat(s: string, d: string)
    requires |d| > 0
    decreases |s|
    ensures Concat(Split(s, d)) == DeleteDelimiters(s, d)
  {
    match Find(s, d)
    case None =>
      DeleteKeepsPrefix(s, d, |s|);
      assert s[..|s|] == s;
      if s != [] {
        assert Concat([s]) == s + Concat([]);
      }
    case Some(p) =>
      var rest := s[p + |d|..];
      SplitConcat(rest, d);
      DeleteKeepsPrefix(s, d, p);
      assert s[p..][|d|..] == rest;
      assert |s[p..]| > 0;
      assert OccursAt(s[p..], d, 0) by {
        assert s[p..][0..|d|] == s[p..p + |d|];
      }
      if p > 0 {
        var ts := [s[..p]] + Split(rest, d);
        assert ts[1..] == Split(rest, d);
      }
  }
}
