/** Longest common subsequences: the table `diff_array_lcs` fills, and why no shorter script exists. */
module Lcs {

  function Max(a: nat, b: nat): nat { if a >= b then a else b }

  /** The recurrence the table obeys: `dp[i][j] == Length(old[i..], new[j..])`. */
  function Length<T(==)>(a: seq<T>, b: seq<T>): nat {
    if a == [] || b == [] then 0
    else if a[0] == b[0] then 1 + Length(a[1..], b[1..])
    else Max(Length(a[1..], b), Length(a, b[1..]))
  }

  /** `s` can be obtained from `a` by dropping elements. */
  ghost predicate Subsequence<T>(s: seq<T>, a: seq<T>) {
    s == [] || (a != [] && ((s[0] == a[0] && Subsequence(s[1..], a[1..])) || Subsequence(s, a[1..])))
  }

  ghost predicate Common<T>(s: seq<T>, a: seq<T>, b: seq<T>) {
    Subsequence(s, a) && Subsequence(s, b)
  }

  lemma {:induction false} SubsequenceTail<T>(s: seq<T>, a: seq<T>)
    requires s != [] && Subsequence(s, a)
    ensures Subsequence(s[1..], a)
    ensures a != [] && s[0] == a[0] ==> Subsequence(s[1..], a[1..])
  {
    if s[0] == a[0] && Subsequence(s[1..], a[1..]) {
      assert s[1..] == [] || Subsequence(s[1..], a);
    } else {
      SubsequenceTail(s, a[1..]);
    }
  }

  lemma {:induction false} SubsequenceLength<T>(s: seq<T>, a: seq<T>)
    requires Subsequence(s, a)
    ensures |s| <= |a|
  {
    if s != [] {
      if s[0] == a[0] && Subsequence(s[1..], a[1..]) {
        SubsequenceLength(s[1..], a[1..]);
      } else {
        SubsequenceLength(s, a[1..]);
      }
    }
  }

  lemma {:induction false} SubsequenceOfConcat<T>(x: seq<T>, s: seq<T>, y: seq<T>)
    ensures Subsequence(s, x + s + y)
  {
    if x != [] {
      assert (x + s + y)[1..] == x[1..] + s + y;
      SubsequenceOfConcat(x[1..], s, y);
    } else if s != [] {
      assert x + s + y == s + y;
      assert (s + y)[1..] == [] + s[1..] + y;
      SubsequenceOfConcat([], s[1..], y);
    }
  }

  /** No common subsequence is longer than the table says. */
  lemma {:induction false} LengthIsUpperBound<T>(s: seq<T>, a: seq<T>, b: seq<T>)
    requires Common(s, a, b)
    ensures |s| <= Length(a, b)
    decreases |a| + |b|
  {
    if s != [] {
      if a[0] == b[0] {
        var rest := if s[0] == a[0] then s[1..] else s;
        if s[0] == a[0] {
          SubsequenceTail(s, a);
          SubsequenceTail(s, b);
        }
        LengthIsUpperBound(rest, a[1..], b[1..]);
      } else if s[0] == a[0] {
        LengthIsUpperBound(s, a, b[1..]);
      } else {
        LengthIsUpperBound(s, a[1..], b);
      }
    }
  }

  /** A common subsequence of that length exists. */
  lemma {:induction false} LengthIsAttained<T>(a: seq<T>, b: seq<T>) returns (s: seq<T>)
    ensures Common(s, a, b) && |s| == Length(a, b)
    decreases |a| + |b|
  {
    if a == [] || b == [] {
      s := [];
    } else if a[0] == b[0] {
      var rest := LengthIsAttained(a[1..], b[1..]);
      s := [a[0]] + rest;
      assert s[1..] == rest;
    } else if Length(a[1..], b) >= Length(a, b[1..]) {
      s := LengthIsAttained(a[1..], b);
    } else {
      s := LengthIsAttained(a, b[1..]);
    }
  }

  // ------------------------------------------------------------------
  // Editing one element at a time
  // ------------------------------------------------------------------

  /** Dropping one element of `a` keeps every subsequence of the shorter list. */
  lemma {:induction false} SubsequenceOfLonger<T>(s: seq<T>, a: seq<T>, i: nat)
    requires i < |a| && Subsequence(s, a[..i] + a[i + 1..])
    ensures Subsequence(s, a)
  {
    var short := a[..i] + a[i + 1..];
    if s != [] {
      if i == 0 {
        assert short == a[1..];
      } else {
        assert short[1..] == a[1..][..i - 1] + a[1..][i..];
        if s[0] == short[0] && Subsequence(s[1..], short[1..]) {
          SubsequenceOfLonger(s[1..], a[1..], i - 1);
        } else {
          SubsequenceOfLonger(s, a[1..], i - 1);
        }
      }
    }
  }

  /** Dropping one element of `a` costs a subsequence at most one element. */
  lemma {:induction false} SubsequenceOfShorter<T>(s: seq<T>, a: seq<T>, i: nat) returns (t: seq<T>)
    requires i < |a| && Subsequence(s, a)
    ensures Subsequence(t, a[..i] + a[i + 1..]) && Subsequence(t, s) && |s| <= |t| + 1
  {
    var short := a[..i] + a[i + 1..];
    if s == [] {
      t := [];
    } else if i == 0 {
      assert short == a[1..];
      if s[0] == a[0] && Subsequence(s[1..], a[1..]) {
        t := s[1..];
        SubsequenceSelf(t);
      } else {
        t := s;
        SubsequenceSelf(t);
      }
    } else {
      assert short[1..] == a[1..][..i - 1] + a[1..][i..];
      if s[0] == a[0] && Subsequence(s[1..], a[1..]) {
        var rest := SubsequenceOfShorter(s[1..], a[1..], i - 1);
        t := [s[0]] + rest;
        assert t[1..] == rest;
      } else {
        t := SubsequenceOfShorter(s, a[1..], i - 1);
      }
    }
  }

  lemma {:induction false} SubsequenceSelf<T>(s: seq<T>)
    ensures Subsequence(s, s)
  {
    if s != [] { SubsequenceSelf(s[1..]); }
  }

  lemma {:induction false} SubsequenceTransitive<T>(s: seq<T>, t: seq<T>, a: seq<T>)
    requires Subsequence(s, t) && Subsequence(t, a)
    ensures Subsequence(s, a)
    decreases |t| + |a|
  {
    if s != [] {
      if t[0] == a[0] && Subsequence(t[1..], a[1..]) {
        if s[0] == t[0] && Subsequence(s[1..], t[1..]) {
          SubsequenceTransitive(s[1..], t[1..], a[1..]);
        } else {
          SubsequenceTransitive(s, t[1..], a[1..]);
        }
      } else {
        SubsequenceTransitive(s, t, a[1..]);
      }
    }
  }

  /** One removal shortens the longest common subsequence by at most one, and never lengthens it. */
  lemma RemovalChangesLengthByOne<T>(a: seq<T>, b: seq<T>, i: nat)
    requires i < |a|
    ensures Length(a[..i] + a[i + 1..], b) <= Length(a, b) <= Length(a[..i] + a[i + 1..], b) + 1
  {
    var short := a[..i] + a[i + 1..];
    var s := LengthIsAttained(short, b);
    SubsequenceOfLonger(s, a, i);
    LengthIsUpperBound(s, a, b);
    var l := LengthIsAttained(a, b);
    var t := SubsequenceOfShorter(l, a, i);
    SubsequenceTransitive(t, l, b);
    LengthIsUpperBound(t, short, b);
  }

  lemma {:induction false} LengthOfSelf<T>(a: seq<T>)
    ensures Length(a, a) == |a|
  {
    if a != [] { LengthOfSelf(a[1..]); }
  }

  // ------------------------------------------------------------------
  // The table
  // ------------------------------------------------------------------

  /** The table of `diff_array_lcs`, filled from the bottom right corner. */
  method FillTable<T(==)>(o: seq<T>, n: seq<T>) returns (dp: array2<nat>)
    ensures fresh(dp) && dp.Length0 == |o| + 1 && dp.Length1 == |n| + 1
    ensures forall i, j {:trigger dp[i, j]} :: 0 <= i <= |o| && 0 <= j <= |n| ==> dp[i, j] == Length(o[i..], n[j..])
  {
    var rows, cols := |o|, |n|;
    dp := new nat[rows + 1, cols + 1]((_, _) => 0);
    var i := rows;
    while i > 0
      invariant 0 <= i <= rows
      invariant forall x, y {:trigger dp[x, y]} :: i <= x <= rows && 0 <= y <= cols ==> dp[x, y] == Length(o[x..], n[y..])
      invariant forall x :: 0 <= x <= rows ==> dp[x, cols] == 0
    {
      i := i - 1;
      var j := cols;
      while j > 0
        invariant 0 <= j <= cols
        invariant forall x, y {:trigger dp[x, y]} :: i < x <= rows && 0 <= y <= cols ==> dp[x, y] == Length(o[x..], n[y..])
        invariant forall y {:trigger dp[i, y]} :: j <= y <= cols ==> dp[i, y] == Length(o[i..], n[y..])
        invariant forall x :: 0 <= x <= rows ==> dp[x, cols] == 0
      {
        j := j - 1;
        assert o[i..][1..] == o[i + 1..] && n[j..][1..] == n[j + 1..];
        dp[i, j] := if o[i] == n[j] then dp[i + 1, j + 1] + 1 else Max(dp[i + 1, j], dp[i, j + 1]);
      }
    }
  }
}
