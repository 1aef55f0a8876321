/** Fixed-width groups laid end to end, the shape of every buffer the
    program fills: three floats per position, two per texture coordinate,
    six indices per grid cell, one row of the grid after another. */
module Layout {
  import opened CInt

  /** Groups f(0), ..., f(n - 1), laid end to end. */
  function Concat<T>(f: nat -> seq<T>, n: nat): seq<T>
  {
    if n == 0 then [] else Concat(f, n - 1) + f(n - 1)
  }

  /** Every group has `k` elements. */
  ghost predicate Uniform<T>(f: nat -> seq<T>, k: nat)
  {
    forall j :: |f(j)| == k
  }

  lemma {:induction false} ConcatLength<T>(f: nat -> seq<T>, n: nat, k: nat)
    requires Uniform(f, k)
    ensures |Concat(f, n)| == k * n
  {
    if n > 0 {
      ConcatLength(f, n - 1, k);
      assert k * n == k * (n - 1) + k;
    }
  }

  /** The first groups are a prefix of the whole. */
  lemma {:induction false} ConcatPrefix<T>(f: nat -> seq<T>, m: nat, n: nat)
    requires m <= n
    ensures Concat(f, m) <= Concat(f, n)
  {
    if m < n {
      ConcatPrefix(f, m, n - 1);
    }
  }

  /** Element c of group j sits just after the first j groups. */
  lemma ConcatAt<T>(f: nat -> seq<T>, n: nat, j: nat, c: nat)
    requires j < n && c < |f(j)|
    ensures |Concat(f, j)| + c < |Concat(f, n)| && Concat(f, n)[|Concat(f, j)| + c] == f(j)[c]
  {
    ConcatPrefix(f, j + 1, n);
    assert Concat(f, j + 1) == Concat(f, j) + f(j);
  }

  /** When every group has k elements, group j is the slice at k j. */
  lemma ConcatGroup<T>(f: nat -> seq<T>, n: nat, k: nat, j: nat)
    requires Uniform(f, k) && j < n
    ensures k * j + k <= |Concat(f, n)| && Concat(f, n)[k * j..k * j + k] == f(j)
  {
    ConcatPrefix(f, j + 1, n);
    ConcatLength(f, j, k);
    assert Concat(f, j + 1) == Concat(f, j) + f(j);
    assert Concat(f, n)[k * j..k * j + k] == Concat(f, j + 1)[k * j..k * j + k];
  }

  /** When group i is itself made of groups of c elements, its group j
      is the slice at k i + c j of the whole. */
  lemma ConcatGroupOfGroup<T>(f: nat -> seq<T>, n: nat, k: nat, i: nat, g: nat -> seq<T>, m: nat, c: nat, j: nat)
    requires Uniform(f, k) && i < n && Uniform(g, c) && j < m && f(i) == Concat(g, m)
    ensures k * i + c * j + c <= |Concat(f, n)| && Concat(f, n)[k * i + c * j..k * i + c * j + c] == g(j)
  {
    ConcatGroup(f, n, k, i);
    ConcatGroup(g, m, c, j);
    MulNonneg(k, i);
    MulNonneg(c, j);
    SliceOfSlice(Concat(f, n), k * i, k, c * j, c);
  }

  /** A slice of a slice is a slice of the whole. */
  lemma SliceOfSlice<T>(s: seq<T>, a: nat, len: nat, b: nat, l: nat)
    requires a + len <= |s| && b + l <= len
    ensures s[a..a + len][b..b + l] == s[a + b..a + b + l]
  {
    var inner, whole := s[a..a + len][b..b + l], s[a + b..a + b + l];
    forall k | 0 <= k < l
      ensures inner[k] == whole[k]
    {
      assert inner[k] == s[a..a + len][b + k] == s[a + b + k];
    }
  }

  /** Every element comes from one of the groups. */
  lemma {:induction false} ConcatMember<T>(f: nat -> seq<T>, n: nat, x: T)
    requires x in Concat(f, n)
    ensures exists j: nat :: j < n && x in f(j)
  {
    if x !in f(n - 1) {
      ConcatMember(f, n - 1, x);
    }
  }

  /** A prefix splits at any point before its end. */
  lemma SplitPrefix<T>(s: seq<T>, i: nat, j: nat)
    requires i <= j <= |s|
    ensures s[..j] == s[..i] + s[i..j]
  {
  }

  /** Writes `s` into `a` from index `at` on: the segment of `a` that
      starts at `from` grows by `s`, and nothing outside it changes. */
  method Store<T>(a: array<T>, ghost from: nat, at: nat, s: seq<T>)
    requires from <= at && at + |s| <= a.Length
    modifies a
    ensures a[..from] == old(a[..from]) && a[from..at + |s|] == old(a[from..at]) + s
    ensures a[at + |s|..] == old(a[at + |s|..])
  {
    forall k | 0 <= k < |s| {
      a[at + k] := s[k];
    }
    assert a[from..at + |s|] == a[from..at] + a[at..at + |s|];
  }
}
