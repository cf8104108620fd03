/** Small shared vocabulary: optional values, and sums of a weight over a sequence. */
module Options {
  datatype Option<+T> = None | Some(value: T)
}

/** Sums over append-only tables. A table is a sequence whose row numbers are its ids. */
module Sums {
  function SumBy<T>(f: T -> int, s: seq<T>): int {
    if s == [] then 0 else SumBy(f, s[..|s| - 1]) + f(s[|s| - 1])
  }

  lemma SumAppend<T>(f: T -> int, s: seq<T>, x: T)
    ensures SumBy(f, s + [x]) == SumBy(f, s) + f(x)
  {
    assert (s + [x])[..|s|] == s;
  }

  lemma {:induction false} SumUpdate<T>(f: T -> int, s: seq<T>, i: nat, x: T)
    requires i < |s|
    ensures SumBy(f, s[i := x]) == SumBy(f, s) - f(s[i]) + f(x)
  {
    var n := |s| - 1;
    if i == n {
      assert s[i := x][..n] == s[..n];
    } else {
      assert s[i := x][..n] == s[..n][i := x];
      SumUpdate(f, s[..n], i, x);
    }
  }

  lemma {:induction false} SumNonNegative<T>(f: T -> int, s: seq<T>)
    requires forall i :: 0 <= i < |s| ==> f(s[i]) >= 0
    ensures SumBy(f, s) >= 0
  {
    if s != [] { SumNonNegative(f, s[..|s| - 1]); }
  }

  lemma {:induction false} SumZero<T>(f: T -> int, s: seq<T>)
    requires forall i :: 0 <= i < |s| ==> f(s[i]) == 0
    ensures SumBy(f, s) == 0
  {
    if s != [] { SumZero(f, s[..|s| - 1]); }
  }

  lemma {:induction false} SumZeroExactly<T>(f: T -> int, s: seq<T>)
    requires forall i :: 0 <= i < |s| ==> f(s[i]) >= 0
    ensures SumBy(f, s) == 0 <==> forall i :: 0 <= i < |s| ==> f(s[i]) == 0
  {
    SumNonNegative(f, s);
    if s != [] {
      SumZeroExactly(f, s[..|s| - 1]);
      SumNonNegative(f, s[..|s| - 1]);
      assert forall i :: 0 <= i < |s| - 1 ==> s[..|s| - 1][i] == s[i];
    }
  }

  /** A sum to which at most one row contributes is that row's weight. */
  lemma {:induction false} SumSingle<T>(f: T -> int, s: seq<T>, i: nat)
    requires i < |s|
    requires forall j :: 0 <= j < |s| && j != i ==> f(s[j]) == 0
    ensures SumBy(f, s) == f(s[i])
  {
    if i == |s| - 1 {
      SumZero(f, s[..i]);
    } else {
      SumSingle(f, s[..|s| - 1], i);
    }
  }

  lemma {:induction false} SumSame<T>(f: T -> int, s: seq<T>, t: seq<T>)
    requires |s| == |t| && forall i :: 0 <= i < |s| ==> f(s[i]) == f(t[i])
    ensures SumBy(f, s) == SumBy(f, t)
  {
    if s != [] { SumSame(f, s[..|s| - 1], t[..|t| - 1]); }
  }

  lemma {:induction false} SumAtMost<T>(f: T -> int, g: T -> int, s: seq<T>)
    requires forall i :: 0 <= i < |s| ==> f(s[i]) <= g(s[i])
    ensures SumBy(f, s) <= SumBy(g, s)
  {
    if s != [] { SumAtMost(f, g, s[..|s| - 1]); }
  }

  lemma {:induction false} SumAtMostTwo<T>(f: T -> int, g: T -> int, h: T -> int, s: seq<T>)
    requires forall i :: 0 <= i < |s| ==> f(s[i]) <= g(s[i]) + h(s[i])
    ensures SumBy(f, s) <= SumBy(g, s) + SumBy(h, s)
  {
    if s != [] { SumAtMostTwo(f, g, h, s[..|s| - 1]); }
  }

  /** The same, one better when some row falls short. */
  lemma {:induction false} SumBelowTwo<T>(f: T -> int, g: T -> int, h: T -> int, s: seq<T>, k: nat)
    requires forall i :: 0 <= i < |s| ==> f(s[i]) <= g(s[i]) + h(s[i])
    requires k < |s| && f(s[k]) < g(s[k]) + h(s[k])
    ensures SumBy(f, s) < SumBy(g, s) + SumBy(h, s)
  {
    if k == |s| - 1 {
      SumAtMostTwo(f, g, h, s[..k]);
    } else {
      SumBelowTwo(f, g, h, s[..|s| - 1], k);
    }
  }
}
