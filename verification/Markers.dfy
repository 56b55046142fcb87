/** Searching a byte stream for a marker, and holding back a partial marker at the end of a chunk.
    The same two helpers, `indexOf` and `tailPrefix`, serve both terminal filters. */
module Markers {
  import opened Basics

  /** `pat` occurs in `d` at position `i`. */
  predicate At(d: seq<Byte>, pat: seq<Byte>, i: int) {
    0 <= i && i + |pat| <= |d| && d[i..i + |pat|] == pat
  }

  /** The last `k` bytes of `d` are a proper prefix of `pat`. */
  predicate Tail(d: seq<Byte>, pat: seq<Byte>, k: int) {
    0 <= k < |pat| && k <= |d| && d[|d| - k..] == pat[..k]
  }

  /** `r` is where `pat` first occurs, or negative because it does not occur. */
  ghost predicate Leftmost(d: seq<Byte>, pat: seq<Byte>, r: int) {
    if r < 0 then forall i :: !At(d, pat, i)
    else At(d, pat, r) && forall i :: 0 <= i < r ==> !At(d, pat, i)
  }

  /** `h` is the length of the longest proper prefix of `pat` that ends `d`. */
  ghost predicate Longest(d: seq<Byte>, pat: seq<Byte>, h: int) {
    Tail(d, pat, h) && forall j :: h < j ==> !Tail(d, pat, j)
  }

  /** The leftmost occurrence of `pat`, or -1. */
  function First(d: seq<Byte>, pat: seq<Byte>): (r: int)
    requires pat != []
    ensures r == -1 || 0 <= r <= |d| - |pat|
    ensures Leftmost(d, pat, r)
  {
    if |d| < |pat| then -1
    else if d[..|pat|] == pat then assert At(d, pat, 0); 0
    else
      var r := First(d[1..], pat);
      FirstAfter(d, pat, 1);
      if r < 0 then -1 else r + 1
  }

  /** The longest proper prefix of `pat` that ends `d`, looking at lengths up to `k`. */
  function HoldUpTo(d: seq<Byte>, pat: seq<Byte>, k: nat): (h: nat)
    requires pat != [] && k < |pat| && k <= |d|
    ensures h <= k && Tail(d, pat, h)
    ensures forall j :: h < j <= k ==> !Tail(d, pat, j)
  {
    if k == 0 || Tail(d, pat, k) then k else HoldUpTo(d, pat, k - 1)
  }

  /** How many trailing bytes of `d` must wait because they may start a marker. */
  function Hold(d: seq<Byte>, pat: seq<Byte>): (h: nat)
    requires pat != []
    ensures h < |pat| && h <= |d|
    ensures Longest(d, pat, h)
  {
    HoldUpTo(d, pat, if |pat| - 1 <= |d| then |pat| - 1 else |d|)
  }

  /** What stands at the leftmost occurrence is the pattern. */
  lemma FirstMatches(d: seq<Byte>, pat: seq<Byte>)
    requires pat != [] && First(d, pat) >= 0
    ensures var r := First(d, pat); d[r..r + |pat|] == pat
  {}

  lemma IsFirst(d: seq<Byte>, pat: seq<Byte>, r: int)
    requires pat != [] && r >= -1 && Leftmost(d, pat, r)
    ensures First(d, pat) == r
  {
    hide First;
  }

  lemma IsHold(d: seq<Byte>, pat: seq<Byte>, h: int)
    requires pat != [] && Longest(d, pat, h)
    ensures Hold(d, pat) == h
  {
    hide Hold;
  }

  /** `indexOf(data, pat, from)`: nested loops over the bytes, leaving the inner one at the first mismatch. */
  method IndexOf(data: seq<Byte>, pat: seq<Byte>, from: nat) returns (r: int)
    requires pat != [] && from <= |data|
    ensures r < 0 ==> r == -1 && First(data[from..], pat) < 0
    ensures r >= 0 ==> r >= from && First(data[from..], pat) == r - from
  {
    var i := from;
    while i + |pat| <= |data|
      invariant from <= i <= |data|
      invariant forall k :: from <= k < i ==> !At(data, pat, k)
    {
      var j := 0;
      while j < |pat| && data[i + j] == pat[j]
        invariant 0 <= j <= |pat|
        invariant forall x :: 0 <= x < j ==> data[i + x] == pat[x]
      {
        j := j + 1;
      }
      if j == |pat| {
        assert At(data, pat, i);
        FirstAfter(data, pat, from);
        return i;
      }
      assert data[i..i + |pat|][j] == data[i + j];
      i := i + 1;
    }
    FirstAfter(data, pat, from);
    return -1;
  }

  /** Searching from an offset is searching the rest of the data. */
  lemma FirstAfter(data: seq<Byte>, pat: seq<Byte>, from: nat)
    requires from <= |data|
    ensures forall k :: k >= 0 ==> At(data[from..], pat, k) == At(data, pat, from + k)
    ensures forall k :: k >= from ==> At(data, pat, k) == At(data[from..], pat, k - from)
  {
    forall k | k >= 0 ensures At(data[from..], pat, k) == At(data, pat, from + k) {
      if from + k + |pat| <= |data| {
        assert data[from..][k..k + |pat|] == data[from + k..from + k + |pat|];
      }
    }
    assert forall k :: k >= from ==> At(data, pat, k) == At(data, pat, from + (k - from));
  }

  /** `tailPrefix(data, pat)`: tries the longest candidate first. */
  method TailPrefix(data: seq<Byte>, pat: seq<Byte>) returns (h: nat)
    requires pat != []
    ensures h == Hold(data, pat)
  {
    var k := if |pat| - 1 <= |data| then |pat| - 1 else |data|;
    while k >= 1
      invariant 0 <= k <= |data| && k < |pat|
      invariant forall j :: k < j ==> !Tail(data, pat, j)
    {
      var j := 0;
      while j < k && data[|data| - k + j] == pat[j]
        invariant 0 <= j <= k
        invariant forall x :: 0 <= x < j ==> data[|data| - k + x] == pat[x]
      {
        j := j + 1;
      }
      if j == k {
        assert data[|data| - k..] == pat[..k];
        assert Tail(data, pat, k);
        return k;
      }
      assert data[|data| - k..][j] == data[|data| - k + j] && pat[..k][j] == pat[j];
      k := k - 1;
    }
    return 0;
  }

  /** An occurrence that ends inside `d` is an occurrence in `d`. */
  lemma AtInside(d: seq<Byte>, c: seq<Byte>, pat: seq<Byte>, i: int)
    ensures 0 <= i && i + |pat| <= |d| ==> At(d + c, pat, i) == At(d, pat, i)
  {
    if 0 <= i && i + |pat| <= |d| {
      assert (d + c)[i..i + |pat|] == d[i..i + |pat|];
    }
  }

  /** An occurrence that starts in `d` and ends after it leaves a partial marker at the end of `d`. */
  lemma AtAcross(d: seq<Byte>, c: seq<Byte>, pat: seq<Byte>, i: int)
    requires 0 <= i < |d| < i + |pat|
    requires At(d + c, pat, i)
    ensures Tail(d, pat, |d| - i)
  {
    assert d[i..] == (d + c)[i..i + |pat|][..|d| - i];
  }

  /** The heart of every chunked search. If `d` has no marker, then whatever bytes `c` arrive next,
      no marker of `d + c` starts before the held tail of `d`. */
  lemma NoEarlyStart(d: seq<Byte>, c: seq<Byte>, pat: seq<Byte>, i: int)
    requires pat != [] && First(d, pat) < 0
    requires At(d + c, pat, i)
    ensures i >= |d| - Hold(d, pat)
  {
    AtInside(d, c, pat, i);
    if i < |d| { AtAcross(d, c, pat, i); }
  }

  /** So the search may restart at the held tail: the bytes before it only shift the answer. */
  lemma {:induction false} SearchResumes(d: seq<Byte>, c: seq<Byte>, pat: seq<Byte>)
    requires pat != [] && First(d, pat) < 0
    ensures var cut := |d| - Hold(d, pat);
            var r := First(d[cut..] + c, pat);
            First(d + c, pat) == if r < 0 then -1 else cut + r
  {
    hide First, Hold, At, Longest;
    var cut := |d| - Hold(d, pat);
    assert (d + c)[cut..] == d[cut..] + c;
    FirstAfter(d + c, pat, cut);
    forall i | At(d + c, pat, i) ensures i >= cut && At(d[cut..] + c, pat, i - cut) { NoEarlyStart(d, c, pat, i); }
    var r := First(d[cut..] + c, pat);
    IsFirst(d + c, pat, if r < 0 then -1 else cut + r);
  }

  /** Dropping bytes that a tail does not reach does not change it. */
  lemma TailWithin(d: seq<Byte>, pat: seq<Byte>, cut: nat, k: nat)
    requires cut + k <= |d|
    ensures Tail(d[cut..], pat, k) == Tail(d, pat, k)
  {
    assert d[cut..][|d| - cut - k..] == d[|d| - k..];
  }

  /** A tail of `d + c` that is longer than `c` was already a tail of `d`. */
  lemma TailBefore(d: seq<Byte>, c: seq<Byte>, pat: seq<Byte>, k: nat)
    requires Tail(d + c, pat, k) && |c| <= k
    ensures Tail(d, pat, k - |c|)
  {
    assert d[|d| - (k - |c|)..] == (d + c)[|d + c| - k..][..k - |c|];
  }

  /** The held tail of a longer stream is found by looking at the resumed part only. */
  lemma {:induction false} HoldResumes(d: seq<Byte>, c: seq<Byte>, pat: seq<Byte>)
    requires pat != []
    ensures Hold(d + c, pat) == Hold(d[|d| - Hold(d, pat)..] + c, pat)
  {
    hide Hold, Tail;
    var cut := |d| - Hold(d, pat);
    var e := d[cut..] + c;
    var h := Hold(e, pat);
    assert (d + c)[cut..] == e;
    TailWithin(d + c, pat, cut, h);
    forall j | Tail(d + c, pat, j) ensures j <= h { TailNotLonger(d, c, pat, j); }
    IsHold(d + c, pat, h);
  }

  lemma TailNotLonger(d: seq<Byte>, c: seq<Byte>, pat: seq<Byte>, j: int)
    requires pat != [] && Tail(d + c, pat, j)
    ensures j <= Hold(d[|d| - Hold(d, pat)..] + c, pat)
  {
    hide Hold;
    var cut := |d| - Hold(d, pat);
    if j >= |c| { TailBefore(d, c, pat, j); }
    TailWithin(d + c, pat, cut, j);
    assert (d + c)[cut..] == d[cut..] + c;
  }
}
