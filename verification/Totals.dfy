/** Sums over a table: what the source asks the database for with Sum() and count(). */
module Totals {

  function Total<T>(s: seq<T>, f: T -> int): int {
    if s == [] then 0 else Total(s[..|s| - 1], f) + f(s[|s| - 1])
  }

  lemma TotalAppend<T>(s: seq<T>, x: T, f: T -> int)
    ensures Total(s + [x], f) == Total(s, f) + f(x)
  {
    assert (s + [x])[..|s|] == s;
  }

  // Replacing one row changes a sum by the difference of that row alone.
  lemma {:induction false} TotalUpdate<T>(s: seq<T>, i: nat, x: T, f: T -> int)
    requires i < |s|
    ensures Total(s[i := x], f) == Total(s, f) - f(s[i]) + f(x)
  {
    var n := |s| - 1;
    if i == n {
      assert s[i := x][..n] == s[..n];
    } else {
      assert s[i := x][..n] == s[..n][i := x];
      TotalUpdate(s[..n], i, x, f);
    }
  }

  lemma {:induction false} TotalLeq<T>(s: seq<T>, f: T -> int, g: T -> int)
    requires forall x :: x in s ==> f(x) <= g(x)
    ensures Total(s, f) <= Total(s, g)
  {
    if s != [] {
      TotalLeq(s[..|s| - 1], f, g);
    }
  }

  lemma {:induction false} TotalSame<T>(s: seq<T>, f: T -> int, g: T -> int)
    requires forall x :: x in s ==> f(x) == g(x)
    ensures Total(s, f) == Total(s, g)
  {
    if s != [] {
      TotalSame(s[..|s| - 1], f, g);
    }
  }

  lemma {:induction false} TotalNonNegative<T>(s: seq<T>, f: T -> int)
    requires forall x :: x in s ==> f(x) >= 0
    ensures Total(s, f) >= 0
  {
    if s != [] {
      TotalNonNegative(s[..|s| - 1], f);
    }
  }

  lemma {:induction false} TotalIsZero<T>(s: seq<T>, f: T -> int)
    requires forall x :: x in s ==> f(x) == 0
    ensures Total(s, f) == 0
  {
    if s != [] {
      TotalIsZero(s[..|s| - 1], f);
    }
  }

  // A sum of non-negative terms is at least any one of them.
  lemma {:induction false} TotalAtLeastOne<T>(s: seq<T>, i: nat, f: T -> int)
    requires i < |s|
    requires forall x :: x in s ==> f(x) >= 0
    ensures f(s[i]) <= Total(s, f)
  {
    var n := |s| - 1;
    TotalNonNegative(s[..n], f);
    if i < n {
      TotalAtLeastOne(s[..n], i, f);
    }
  }
}
