/** The few Python built-ins the engine and the policies rely on: max, min, sum and list repetition. */
module Builtins {

  function Max(a: int, b: int): int { if a >= b then a else b }

  function Min(a: int, b: int): int { if a <= b then a else b }

  /** `sum(s)`; the empty sum is 0. */
  function Sum(s: seq<int>): int
  {
    if s == [] then 0 else Sum(s[..|s| - 1]) + s[|s| - 1]
  }

  /** `[x] * n`: n copies of x, none when n is zero or negative. */
  function Fill(x: int, n: int): (s: seq<int>)
    ensures |s| == Max(0, n)
    ensures forall k :: 0 <= k < |s| ==> s[k] == x
  {
    seq(Max(0, n), _ => x)
  }

  lemma {:induction false} SumNonNegative(s: seq<int>)
    requires forall k :: 0 <= k < |s| ==> s[k] >= 0
    ensures Sum(s) >= 0
  {
    if s != [] {
      SumNonNegative(s[..|s| - 1]);
    }
  }

  lemma {:induction false} SumBounded(s: seq<int>, hi: int)
    requires forall k :: 0 <= k < |s| ==> s[k] <= hi
    ensures Sum(s) <= |s| * hi
  {
    if s != [] {
      SumBounded(s[..|s| - 1], hi);
    }
  }

  /** The sum of n copies of x is n times x. */
  lemma {:induction false} SumFill(x: int, n: nat)
    ensures Sum(Fill(x, n)) == n * x
  {
    if n > 0 {
      assert Fill(x, n)[..n - 1] == Fill(x, n - 1);
      SumFill(x, n - 1);
    }
  }
}
