/** Exact integer powers and products over the reals: x^n and x^-n by
    recursion on n, so that annuity algebra stays exact (no logarithms, no
    rounding), the product of a sequence, and the two-argument
    minimum and maximum used by the formulas. */
module Powers {

  function MinReal(a: real, b: real): real
  {
    if a <= b then a else b
  }

  function MaxReal(a: real, b: real): real
  {
    if a >= b then a else b
  }

  function MinInt(a: int, b: int): int
  {
    if a <= b then a else b
  }

  function MaxInt(a: int, b: int): int
  {
    if a >= b then a else b
  }

  /** x^n */
  function Pow(x: real, n: nat): real
  {
    if n == 0 then 1.0 else x * Pow(x, n - 1)
  }

  /** x^-n, that is (1/x)^n */
  function InvPow(x: real, n: nat): real
    requires x != 0.0
  {
    if n == 0 then 1.0 else InvPow(x, n - 1) / x
  }

  lemma {:induction false} InvPowPositive(x: real, n: nat)
    requires x > 0.0
    ensures InvPow(x, n) > 0.0
  {
    if n > 0 {
      InvPowPositive(x, n - 1);
    }
  }

  /** For a base above one, x^-n lies in (0, 1/x] once n >= 1. */
  lemma {:induction false} InvPowBelowOne(x: real, n: nat)
    requires x > 1.0 && n >= 1
    ensures 0.0 < InvPow(x, n) <= 1.0 / x < 1.0
  {
    if n > 1 {
      InvPowBelowOne(x, n - 1);
      DivShrinks(InvPow(x, n - 1), x);
    }
  }

  /** For a base in (0, 1), x^-n exceeds one once n >= 1. */
  lemma {:induction false} InvPowAboveOne(x: real, n: nat)
    requires 0.0 < x < 1.0 && n >= 1
    ensures InvPow(x, n) > 1.0
  {
    if n > 1 {
      InvPowAboveOne(x, n - 1);
      DivGrows(InvPow(x, n - 1), x);
    } else {
      assert InvPow(x, 1) == 1.0 / x;
    }
  }

  /** For a base above one, x^-n does not increase with n. */
  lemma {:induction false} InvPowAntitone(x: real, m: nat, n: nat)
    requires x > 1.0 && m <= n
    ensures 0.0 < InvPow(x, n) <= InvPow(x, m)
    decreases n - m
  {
    InvPowPositive(x, n);
    if m < n {
      InvPowAntitone(x, m, n - 1);
      DivShrinks(InvPow(x, n - 1), x);
    }
  }

  lemma DivShrinks(p: real, x: real)
    requires p > 0.0 && x > 1.0
    ensures 0.0 < p / x < p
  {
  }

  lemma DivGrows(p: real, x: real)
    requires p > 0.0 && 0.0 < x < 1.0
    ensures p / x > p
  {
    ScaledBelow(p, x, p / x);
  }

  lemma ScaledBelow(p: real, x: real, q: real)
    requires q * x == p && 0.0 < x < 1.0 && q > 0.0
    ensures q > p
  {
  }

  /** A base in [0, 1] keeps every power in [0, 1]. */
  lemma {:induction false} PowUnitInterval(x: real, n: nat)
    requires 0.0 <= x <= 1.0
    ensures 0.0 <= Pow(x, n) <= 1.0
  {
    if n > 0 {
      PowUnitInterval(x, n - 1);
      var p := Pow(x, n - 1);
      assert 0.0 <= x * p <= p <= 1.0;
    }
  }

  /** x |-> x^n does not decrease on the non-negative reals. */
  lemma {:induction false} PowMonotone(x: real, y: real, n: nat)
    requires 0.0 <= x <= y
    ensures 0.0 <= Pow(x, n) <= Pow(y, n)
  {
    if n > 0 {
      PowMonotone(x, y, n - 1);
      var p, q := Pow(x, n - 1), Pow(y, n - 1);
      assert x * p <= y * p <= y * q;
    }
  }

  lemma {:induction false} PowOfZero(n: nat)
    requires n >= 1
    ensures Pow(0.0, n) == 0.0
  {
  }

  lemma {:induction false} PowOfOne(n: nat)
    ensures Pow(1.0, n) == 1.0
  {
    if n > 0 {
      PowOfOne(n - 1);
    }
  }

  /** The product of all elements, multiplied in from the front. */
  function Product(xs: seq<real>): real
  {
    if |xs| == 0 then 1.0 else Product(xs[..|xs| - 1]) * xs[|xs| - 1]
  }

  /** A product of factors in [0, 1] stays in [0, 1]. */
  lemma {:induction false} ProductUnitInterval(xs: seq<real>)
    requires forall k :: 0 <= k < |xs| ==> 0.0 <= xs[k] <= 1.0
    ensures 0.0 <= Product(xs) <= 1.0
  {
    if |xs| > 0 {
      ProductUnitInterval(xs[..|xs| - 1]);
      var p := Product(xs[..|xs| - 1]);
      ProductOfUnits(p, xs[|xs| - 1]);
    }
  }

  lemma ProductOfUnits(p: real, x: real)
    requires 0.0 <= p <= 1.0 && 0.0 <= x <= 1.0
    ensures 0.0 <= p * x <= 1.0
  {
    assert 0.0 <= p * x <= p;
  }

  /** The product of x repeated n times is x^n. */
  lemma {:induction false} ProductOfConstant(xs: seq<real>, x: real)
    requires forall k :: 0 <= k < |xs| ==> xs[k] == x
    ensures Product(xs) == Pow(x, |xs|)
  {
    if |xs| > 0 {
      ProductOfConstant(xs[..|xs| - 1], x);
    }
  }
}
