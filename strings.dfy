/** Splitting a string around a non-empty separator the way Go's
    `strings.Split` does: the leftmost occurrence is cut first, and scanning
    resumes after it, so occurrences never overlap. `Join` is its inverse. */
module Strings {
  import opened Wrappers

  /** `d` occurs in `s` starting at index `i`. */
  predicate OccursAt(s: string, d: string, i: nat)
  {
    i + |d| <= |s| && s[i..i + |d|] == d
  }

  /** `d` occurs nowhere in `s`. */
  predicate Free(s: string, d: string)
  {
    forall i: nat | i <= |s| :: !OccursAt(s, d, i)
  }

  /** The first index at or after `i` where `d` occurs in `s`. */
  function IndexFrom(s: string, d: string, i: nat): (r: Option<nat>)
    requires i <= |s|
    ensures r.Some? ==> i <= r.value && r.value + |d| <= |s|
    decreases |s| - i
  {
    if OccursAt(s, d, i) then Some(i)
    else if i == |s| then None
    else IndexFrom(s, d, i + 1)
  }

  /** Go's `strings.Index`: the leftmost occurrence of `d` in `s`, if any. */
  function Index(s: string, d: string): (r: Option<nat>)
    ensures r.Some? ==> r.value + |d| <= |s|
  {
    IndexFrom(s, d, 0)
  }

  /** IndexFrom finds the first occurrence at or after `i`, and finds none
      only when there is none. */
  lemma {:induction false} IndexFromFirst(s: string, d: string, i: nat)
    requires i <= |s|
    ensures IndexFrom(s, d, i).Some? ==> i <= IndexFrom(s, d, i).value && OccursAt(s, d, IndexFrom(s, d, i).value)
    ensures IndexFrom(s, d, i).Some? ==> forall j: nat :: i <= j < IndexFrom(s, d, i).value ==> !OccursAt(s, d, j)
    ensures IndexFrom(s, d, i).None? ==> forall j: nat :: i <= j ==> !OccursAt(s, d, j)
    decreases |s| - i
  {
    if !OccursAt(s, d, i) && i < |s| {
      IndexFromFirst(s, d, i + 1);
    }
  }

  /** Index gives the leftmost occurrence, and none exactly when `s` is free of `d`. */
  lemma IndexFirst(s: string, d: string)
    ensures Index(s, d).Some? ==> OccursAt(s, d, Index(s, d).value)
    ensures Index(s, d).Some? ==> forall j: nat :: j < Index(s, d).value ==> !OccursAt(s, d, j)
    ensures Index(s, d).None? <==> Free(s, d)
  {
    IndexFromFirst(s, d, 0);
  }

  /** `s` concatenated around `d`; the inverse of `Split`. */
  function Join(parts: seq<string>, d: string): (joined: string)
  {
    if parts == [] then ""
    else if |parts| == 1 then parts[0]
    else parts[0] + d + Join(parts[1..], d)
  }

  /** Go's `strings.Split(s, d)` for a non-empty `d`: the part before the
      leftmost occurrence, then the split of what follows it; a string
      without `d` is a single part. */
  function Split(s: string, d: string): (parts: seq<string>)
    requires |d| > 0
    ensures |parts| >= 1
    decreases |s|
  {
    match Index(s, d)
    case None => [s]
    case Some(k) => [s[..k]] + Split(s[k + |d|..], d)
  }

  /** Joining the parts of a split around the separator gives back `s`. */
  lemma {:induction false} JoinSplit(s: string, d: string)
    requires |d| > 0
    ensures Join(Split(s, d), d) == s
    decreases |s|
  {
    IndexFirst(s, d);
    match Index(s, d)
    case None =>
    case Some(k) =>
      var rest := s[k + |d|..];
      var parts := Split(s, d);
      assert parts == [s[..k]] + Split(rest, d);
      assert parts[1..] == Split(rest, d);
      JoinSplit(rest, d);
      assert Join(parts, d) == s[..k] + d + rest;
      assert s == s[..k] + d + rest;
  }

  /** No part of a split contains the separator. */
  lemma {:induction false} SplitPartsFree(s: string, d: string)
    requires |d| > 0
    ensures forall k :: 0 <= k < |Split(s, d)| ==> Free(Split(s, d)[k], d)
    decreases |s|
  {
    IndexFirst(s, d);
    match Index(s, d)
    case None =>
    case Some(k) =>
      FreeBefore(s, d, k);
      SplitPartsFree(s[k + |d|..], d);
  }

  /** The part of `s` before its leftmost occurrence of `d` does not contain `d`. */
  lemma FreeBefore(s: string, d: string, k: nat)
    requires |d| > 0 && Index(s, d) == Some(k)
    ensures k + |d| <= |s| && Free(s[..k], d)
  {
    IndexFirst(s, d);
    forall j: nat | j <= k
      ensures !OccursAt(s[..k], d, j)
    {
      if OccursAt(s[..k], d, j) {
        OccursInPrefix(s[..k], s, d, j);
      }
    }
  }

  /** An occurrence in a prefix `t` of `s` is an occurrence in `s`. */
  lemma OccursInPrefix(t: string, s: string, d: string, j: nat)
    requires |t| <= |s| && s[..|t|] == t
    requires j + |d| <= |t|
    ensures OccursAt(t, d, j) <==> OccursAt(s, d, j)
  {
    assert t[j..j + |d|] == s[j..j + |d|];
  }

  /** `p` ends exactly where the leftmost separator of `p + d` begins: the
      separator appears neither inside `p` nor straddling its end. Only then
      does a separator written after `p` cut at the end of `p`. */
  predicate Delimits(p: string, d: string)
  {
    Index(p + d, d) == Some(|p|)
  }

  /** The leftmost occurrence of `d` in `p + d + rest` is the one written
      after `p`, when `p` delimits. */
  lemma IndexAfterDelimiting(p: string, d: string, rest: string)
    requires Delimits(p, d)
    ensures Index(p + d + rest, d) == Some(|p|)
  {
    var s := p + d + rest;
    IndexFirst(p + d, d);
    IndexFirst(s, d);
    assert s[..|p + d|] == p + d;
    OccursInPrefix(p + d, s, d, |p|);
    forall j: nat | j < |p|
      ensures !OccursAt(s, d, j)
    {
      OccursInPrefix(p + d, s, d, j);
    }
  }

  /** Splitting the join of parts gives the parts back, provided each part
      but the last ends where its separator begins and the last part holds
      no separator. */
  lemma {:induction false} SplitJoin(parts: seq<string>, d: string)
    requires |d| > 0 && |parts| >= 1
    requires forall k :: 0 <= k < |parts| - 1 ==> Delimits(parts[k], d)
    requires Free(parts[|parts| - 1], d)
    ensures Split(Join(parts, d), d) == parts
  {
    if |parts| == 1 {
      IndexFirst(parts[0], d);
    } else {
      var p, rest := parts[0], Join(parts[1..], d);
      IndexAfterDelimiting(p, d, rest);
      var s := p + d + rest;
      assert s[..|p|] == p;
      assert s[|p| + |d|..] == rest;
      SplitJoin(parts[1..], d);
    }
  }

  /** Four parts joined around `d`. */
  lemma JoinFour(a: string, b: string, c: string, e: string, d: string)
    ensures Join([a, b, c, e], d) == a + d + b + d + c + d + e
  {
    var parts := [a, b, c, e];
    assert Join(parts[3..], d) == e;
    assert Join(parts[2..], d) == c + d + e;
    assert Join(parts[1..], d) == b + d + (c + d + e);
    assert a + d + b + d + c + d + e == a + d + (b + d + (c + d + e));
  }
}
