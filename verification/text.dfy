/** The two Go string routines the request set-up relies on:
    `strings.TrimSpace` and `strings.SplitN(s, sep, 2)`. */
module Text {

  /** White space as `strings.TrimSpace` sees it, restricted to ASCII. */
  predicate IsSpace(c: char)
  {
    c == ' ' || c == '\t' || c == '\n' || c == '\r' || c == '\U{000B}' || c == '\U{000C}'
  }

  /** Every character of `s` in `[lo, hi)` is white space. */
  predicate SpaceBetween(s: string, lo: int, hi: int)
    requires 0 <= lo && hi <= |s|
  {
    forall k :: lo <= k < hi ==> IsSpace(s[k])
  }

  predicate AllSpace(s: string)
  {
    SpaceBetween(s, 0, |s|)
  }

  /** Neither end of `s` is white space. */
  predicate Trimmed(s: string)
  {
    |s| == 0 || (!IsSpace(s[0]) && !IsSpace(s[|s| - 1]))
  }

  function TrimLeft(s: string): (r: string)
    ensures |r| <= |s| && r == s[|s| - |r|..]
    ensures SpaceBetween(s, 0, |s| - |r|)
    ensures |r| > 0 ==> !IsSpace(r[0])
  {
    if |s| > 0 && IsSpace(s[0]) then TrimLeft(s[1..]) else s
  }

  function TrimRight(s: string): (r: string)
    ensures |r| <= |s| && r == s[..|r|]
    ensures SpaceBetween(s, |r|, |s|)
    ensures |r| > 0 ==> !IsSpace(r[|r| - 1])
  {
    if |s| > 0 && IsSpace(s[|s| - 1]) then TrimRight(s[..|s| - 1]) else s
  }

  /** `strings.TrimSpace`: white space cut off both ends. */
  function TrimSpace(s: string): (r: string)
    ensures Trimmed(r)
  {
    TrimRight(TrimLeft(s))
  }

  /** `TrimSpace(s)` is a slice `s[i..j]` of `s`, and everything cut off on
      either side of it is white space. */
  lemma TrimSpaceSlice(s: string) returns (i: nat, j: nat)
    ensures i <= j <= |s|
    ensures TrimSpace(s) == s[i..j]
    ensures SpaceBetween(s, 0, i) && SpaceBetween(s, j, |s|)
  {
    var l := TrimLeft(s);
    var r := TrimRight(l);
    i := |s| - |l|;
    j := i + |r|;
    SliceOfSlice(s, i, |r|);
    forall k | j <= k < |s|
      ensures IsSpace(s[k])
    {
      assert s[k] == l[k - i];
    }
  }

  lemma SliceOfSlice(s: string, i: nat, n: nat)
    requires i + n <= |s|
    ensures s[i..][..n] == s[i..i + n]
  {
  }

  lemma {:induction false} TrimLeftPadded(p: string, s: string)
    requires AllSpace(p)
    requires |s| == 0 || !IsSpace(s[0])
    ensures TrimLeft(p + s) == s
    decreases |p|
  {
    if |p| > 0 {
      assert (p + s)[0] == p[0];
      assert (p + s)[1..] == p[1..] + s;
      TrimLeftPadded(p[1..], s);
    } else {
      assert p + s == s;
    }
  }

  lemma {:induction false} TrimRightPadded(s: string, q: string)
    requires AllSpace(q)
    requires |s| == 0 || !IsSpace(s[|s| - 1])
    ensures TrimRight(s + q) == s
    decreases |q|
  {
    if |q| > 0 {
      assert (s + q)[|s + q| - 1] == q[|q| - 1];
      assert (s + q)[..|s + q| - 1] == s + q[..|q| - 1];
      TrimRightPadded(s, q[..|q| - 1]);
    } else {
      assert s + q == s;
    }
  }

  /** Surrounding white space is exactly what `TrimSpace` removes. */
  lemma TrimSpacePadded(p: string, s: string, q: string)
    requires AllSpace(p) && AllSpace(q) && Trimmed(s)
    ensures TrimSpace(p + s + q) == s
  {
    if |s| == 0 {
      assert p + s + q == p + q;
      assert AllSpace(p + q);
      TrimLeftPadded(p + q, "");
      assert p + q + "" == p + q;
    } else {
      assert p + s + q == p + (s + q);
      TrimLeftPadded(p, s + q);
      TrimRightPadded(s, q);
    }
  }

  /** Trimming twice is trimming once. */
  lemma TrimSpaceIdempotent(s: string)
    ensures TrimSpace(TrimSpace(s)) == TrimSpace(s)
  {
    var t := TrimSpace(s);
    assert "" + t + "" == t;
    TrimSpacePadded("", t, "");
  }

  /** The index of the first `c` in `s`, or -1 when there is none. */
  function IndexOf(s: string, c: char): (i: int)
    ensures -1 <= i < |s|
    ensures i == -1 <==> c !in s
    ensures 0 <= i ==> s[i] == c && c !in s[..i]
  {
    if |s| == 0 then -1
    else if s[0] == c then 0
    else
      var j := IndexOf(s[1..], c);
      assert s[1..][..if j < 0 then 0 else j] == s[1..1 + if j < 0 then 0 else j];
      if j < 0 then -1 else j + 1
  }

  /** `strings.SplitN(s, sep, 2)`: `[s]` when `sep` does not occur, and
      otherwise the parts before and after the first `sep`. */
  function SplitN2(s: string, sep: char): (parts: seq<string>)
    ensures 1 <= |parts| <= 2
    ensures |parts| == 1 <==> sep !in s
    ensures |parts| == 1 ==> parts[0] == s
    ensures |parts| == 2 ==> parts[0] + [sep] + parts[1] == s && sep !in parts[0]
  {
    var i := IndexOf(s, sep);
    if i < 0 then [s]
    else
      assert s[..i] + [sep] + s[i + 1..] == s;
      [s[..i], s[i + 1..]]
  }

  /** Joining two parts at a separator the first part lacks and splitting
      again gives the parts back, whatever the second part holds. */
  lemma SplitN2Join(key: string, sep: char, rest: string)
    requires sep !in key
    ensures SplitN2(key + [sep] + rest, sep) == [key, rest]
  {
    var s := key + [sep] + rest;
    var i := IndexOf(s, sep);
    assert s[|key|] == sep;
    assert s[..|key|] == key;
    assert s[|key| + 1..] == rest;
  }
}
