/** What several models share: optional values, and the arithmetic facts their proofs reduce to. */
module Basics {
  datatype Option<T> = None | Some(value: T)

  ghost predicate NoRepeats<T>(xs: seq<T>) {
    forall i, j :: 0 <= i < j < |xs| ==> xs[i] != xs[j]
  }

  function Elements<T(==,!new)>(xs: seq<T>): (elements: set<T>)
    ensures forall x :: x in elements <==> x in xs
  {
    set x <- xs
  }

  lemma {:induction false} DistinctSize<T(!new)>(xs: seq<T>)
    requires NoRepeats(xs)
    ensures |Elements(xs)| == |xs|
  {
    if xs != [] {
      DistinctSize(xs[1..]);
      assert xs == [xs[0]] + xs[1..] && xs[0] !in xs[1..];
      assert Elements(xs) == {xs[0]} + Elements(xs[1..]);
    }
  }

  function Max(a: real, b: real): real { if a < b then b else a }
  function Min(a: real, b: real): real { if b < a then b else a }
  function Abs(a: real): real { if a < 0.0 then -a else a }

  /** 2 ** n */
  function Pow2(n: nat): nat {
    if n == 0 then 1 else 2 * Pow2(n - 1)
  }

  lemma {:induction false} Pow2Monotone(m: nat, n: nat)
    requires m <= n
    ensures Pow2(m) <= Pow2(n)
  {
    if m < n { Pow2Monotone(m, n - 1); }
  }

  lemma Product(x: real, y: real)
    requires x >= 0.0 && y >= 0.0
    ensures x * y >= 0.0
  {
  }

  lemma Distribute(x: real, a: real, b: real)
    ensures x * (a + b) == x * a + x * b
  {
  }

  lemma QuotientBetween(s: real, lo: real, hi: real, p: real)
    requires p > 0.0 && lo * p <= s <= hi * p
    ensures lo <= s / p <= hi
  {
  }
}
