/** Scheduled (no-prepayment, no-default) amortization of a level-payment
    mortgage, BMA Uniform Practices/Standard Formulas, section B.1 (SF-4).

    Coupons are annual percentages (8.0 means 8%); the monthly rate is
    r = C/1200.  Ages index periods: age 0 is origination and period n runs
    from age n-1 to age n, starting with M(n-1) = original term - (n-1)
    months remaining. */
module ScheduledPayments {
  import opened Wrappers
  import opened Powers

  /** Monthly rate r = C/1200 of an annual percentage coupon C. */
  function MonthlyRate(coupon: real): real
  {
    coupon / 1200.0
  }

  // ---------------------------------------------------------------------------
  // Algebra of the annuity factor
  // ---------------------------------------------------------------------------

  /** (1+r)^-m differs from one when r != 0 and 1 + r > 0. */
  lemma DiscountNotOne(r: real, m: nat)
    requires r > -1.0 && r != 0.0 && m >= 1
    ensures InvPow(1.0 + r, m) > 0.0 && InvPow(1.0 + r, m) != 1.0
  {
    InvPowPositive(1.0 + r, m);
    if r > 0.0 {
      InvPowBelowOne(1.0 + r, m);
    } else {
      InvPowAboveOne(1.0 + r, m);
    }
  }

  /** The annuity factor AF(M, r) = r / [1 - (1+r)^-M]: the level payment per
      unit of balance that amortizes it to zero over M periods at rate r.
      It exceeds the interest r, and the last payment (M = 1) is 1 + r. */
  function AnnuityFactor(r: real, m: nat): (af: real)
    requires r > -1.0 && r != 0.0 && m >= 1
    ensures r > 0.0 ==> r < af <= 1.0 + r
    ensures m == 1 ==> af == 1.0 + r
  {
    DiscountNotOne(r, m);
    AnnuityFactorFacts(r, m);
    r / (1.0 - InvPow(1.0 + r, m))
  }

  lemma AnnuityFactorFacts(r: real, m: nat)
    requires r > -1.0 && r != 0.0 && m >= 1
    ensures 1.0 - InvPow(1.0 + r, m) != 0.0
    ensures r > 0.0 ==> r < r / (1.0 - InvPow(1.0 + r, m)) <= 1.0 + r
    ensures m == 1 ==> r / (1.0 - InvPow(1.0 + r, m)) == 1.0 + r
  {
    DiscountNotOne(r, m);
    if r > 0.0 {
      InvPowBelowOne(1.0 + r, m);
      PositiveAnnuityBounds(r, InvPow(1.0 + r, m));
    }
    if m == 1 {
      FinalAnnuity(r);
    }
  }

  lemma PositiveAnnuityBounds(r: real, v: real)
    requires r > 0.0 && 0.0 < v <= 1.0 / (1.0 + r)
    ensures r < r / (1.0 - v) <= 1.0 + r
  {
    var q := 1.0 - v;
    assert v * (1.0 + r) <= 1.0 by { ScaleBound(v, 1.0 + r); }
    assert r <= (1.0 + r) * q;
    QuotientBounds(r, q, 1.0 + r);
  }

  lemma ScaleBound(v: real, x: real)
    requires x > 0.0 && v <= 1.0 / x
    ensures v * x <= 1.0
  {
    var y := 1.0 / x;
    assert y * x == 1.0;
    ProductMonotone(v, y, x);
  }

  lemma ProductMonotone(a: real, b: real, c: real)
    requires a <= b && c >= 0.0
    ensures a * c <= b * c && c * a <= c * b
  {
  }

  lemma QuotientBounds(r: real, q: real, b: real)
    requires r > 0.0 && 0.0 < q < 1.0 && r <= b * q
    ensures r < r / q <= b
  {
    var x := r / q;
    assert x * q == r;
    PositiveQuotient(r, q);
    ScaledBelow(r, q, x);
    CancelPositive(x, b, q);
  }

  lemma PositiveQuotient(a: real, b: real)
    requires a > 0.0 && b > 0.0
    ensures a / b > 0.0
  {
  }

  lemma CancelPositive(x: real, b: real, q: real)
    requires q > 0.0 && x * q <= b * q
    ensures x <= b
  {
    assert (x - b) * q <= 0.0;
  }

  lemma FinalAnnuity(r: real)
    requires r > -1.0 && r != 0.0
    ensures InvPow(1.0 + r, 1) == 1.0 / (1.0 + r)
    ensures 1.0 - InvPow(1.0 + r, 1) != 0.0 && r / (1.0 - InvPow(1.0 + r, 1)) == 1.0 + r
  {
    var x := 1.0 + r;
    assert InvPow(x, 1) == InvPow(x, 0) / x;
    OneMinusReciprocal(x);
    Reciprocate(r, x);
  }

  lemma OneMinusReciprocal(x: real)
    requires x > 0.0
    ensures 1.0 - 1.0 / x == (x - 1.0) / x
  {
  }

  lemma Reciprocate(r: real, x: real)
    requires r != 0.0 && x > 0.0
    ensures r / x != 0.0 && r / (r / x) == x
  {
  }

  /** The factor a floating-rate period uses: the annuity factor, or 1/M when
      the period's rate is zero. */
  function PeriodAnnuity(r: real, m: nat): real
    requires r > -1.0 && m >= 1
  {
    if r == 0.0 then 1.0 / m as real else AnnuityFactor(r, m)
  }

  /** BAL(m) = [1 - (1+r)^-m] / [1 - (1+r)^-t] for r > 0. */
  function BalanceRatio(r: real, m: nat, t: nat): real
    requires r > 0.0 && t >= 1
  {
    DiscountNotOne(r, t);
    (1.0 - InvPow(1.0 + r, m)) / (1.0 - InvPow(1.0 + r, t))
  }

  lemma BalanceRatioBounds(r: real, m: nat, t: nat)
    requires r > 0.0 && 1 <= t && m <= t
    ensures 0.0 <= BalanceRatio(r, m, t) <= 1.0
    ensures m == t ==> BalanceRatio(r, m, t) == 1.0
    ensures m == 0 ==> BalanceRatio(r, m, t) == 0.0
    ensures m >= 1 ==> BalanceRatio(r, m, t) > 0.0
  {
    InvPowAntitone(1.0 + r, m, t);
    InvPowBelowOne(1.0 + r, t);
    if m >= 1 {
      InvPowBelowOne(1.0 + r, m);
    }
    UnitFraction(1.0 - InvPow(1.0 + r, m), 1.0 - InvPow(1.0 + r, t));
  }

  lemma UnitFraction(a: real, b: real)
    requires 0.0 <= a <= b && b > 0.0
    ensures 0.0 <= a / b <= 1.0
    ensures a == b ==> a / b == 1.0
    ensures a > 0.0 ==> a / b > 0.0
  {
  }

  /** One period of the scheduled path: BAL(m-1) = BAL(m) * (1 - am), where
      am = AF(m) - r is the fraction of the balance amortized. */
  lemma {:induction false} BalanceRatioStep(r: real, m: nat, t: nat)
    requires r > 0.0 && 1 <= m && 1 <= t
    ensures BalanceRatio(r, m - 1, t) == BalanceRatio(r, m, t) * (1.0 - (AnnuityFactor(r, m) - r))
  {
    InvPowBelowOne(1.0 + r, m);
    InvPowBelowOne(1.0 + r, t);
    var v := InvPow(1.0 + r, m);
    var w := InvPow(1.0 + r, m - 1);
    var d := 1.0 - InvPow(1.0 + r, t);
    assert v == w / (1.0 + r);
    UndoDivision(w, 1.0 + r, v);
    StepIdentity(r, v, w, d, BalanceRatio(r, m, t), BalanceRatio(r, m - 1, t), AnnuityFactor(r, m));
  }

  lemma UndoDivision(w: real, x: real, v: real)
    requires x > 0.0 && v == w / x
    ensures v * x == w
  {
  }

  lemma StepIdentity(r: real, v: real, w: real, d: real, b1: real, b0: real, af: real)
    requires r > 0.0 && 0.0 < v < 1.0 && d > 0.0 && w == v * (1.0 + r)
    requires b1 == (1.0 - v) / d && b0 == (1.0 - w) / d && af == r / (1.0 - v)
    ensures b0 == b1 * (1.0 - (af - r))
  {
    StepAlgebra(r, v, d);
  }

  lemma StepAlgebra(r: real, v: real, d: real)
    requires r > 0.0 && 0.0 < v < 1.0 && d > 0.0
    ensures ((1.0 - v) / d) * (1.0 - (r / (1.0 - v) - r)) == (1.0 - v * (1.0 + r)) / d
  {
  }

  /** BAL(m) * AF(m) = AF(t): the payment is level over the life. */
  lemma LevelPayment(r: real, m: nat, t: nat)
    requires r > 0.0 && 1 <= m && 1 <= t
    ensures BalanceRatio(r, m, t) * AnnuityFactor(r, m) == AnnuityFactor(r, t)
  {
    DiscountNotOne(r, m);
    DiscountNotOne(r, t);
    CancelAlgebra(r, 1.0 - InvPow(1.0 + r, m), 1.0 - InvPow(1.0 + r, t));
  }

  lemma CancelAlgebra(r: real, q: real, d: real)
    requires q != 0.0 && d != 0.0
    ensures (q / d) * (r / q) == r / d
  {
  }

  // ---------------------------------------------------------------------------
  // Fixed-rate closed forms
  // ---------------------------------------------------------------------------

  /** BAL(M) for a fixed-rate level-payment loan, as a fraction of par. */
  function SchBalanceFactorFixedRate(coupon: real, originalTerm: int, remainingTerm: int): (res: Result<Advised<real>>)
    ensures originalTerm <= 0 ==> res == Err(NonPositiveOriginalTerm)
    ensures originalTerm > 0 && remainingTerm < 0 ==> res == Err(NegativeRemainingTerm)
    ensures 0 < originalTerm < remainingTerm ==> res == Err(RemainingTermExceedsOriginal)
    ensures 0 <= remainingTerm <= originalTerm && 0 < originalTerm && coupon < 0.0 ==> res == Err(NegativeCoupon)
    ensures res.Ok? <==> 0 <= remainingTerm <= originalTerm && 0 < originalTerm && coupon >= 0.0
    ensures res.Ok? ==> 0.0 <= res.value.value <= 1.0
    ensures res.Ok? && remainingTerm == 0 ==> res.value == Advised(0.0, [MaturityBalance])
    ensures res.Ok? && remainingTerm == originalTerm ==> res.value.value == 1.0
    ensures res.Ok? && remainingTerm > 0 && coupon == 0.0 ==>
              res.value == Advised(remainingTerm as real / originalTerm as real, [StraightLine])
    ensures res.Ok? && remainingTerm > 0 && coupon > 0.0 ==>
              res.value.warnings == [] && res.value.value > 0.0
  {
    if originalTerm <= 0 then Err(NonPositiveOriginalTerm)
    else if remainingTerm < 0 then Err(NegativeRemainingTerm)
    else if remainingTerm > originalTerm then Err(RemainingTermExceedsOriginal)
    else if coupon < 0.0 then Err(NegativeCoupon)
    else if remainingTerm == 0 then Ok(Advised(0.0, [MaturityBalance]))
    else if coupon == 0.0 then
      UnitFraction(remainingTerm as real, originalTerm as real);
      Ok(Advised(remainingTerm as real / originalTerm as real, [StraightLine]))
    else
      BalanceRatioBounds(MonthlyRate(coupon), remainingTerm, originalTerm);
      Ok(Advised(BalanceRatio(MonthlyRate(coupon), remainingTerm, originalTerm), []))
  }

  /** For a positive coupon the closed form is BalanceRatio at every valid
      remaining term, including the maturity value 0. */
  lemma FixedRateIsBalanceRatio(coupon: real, originalTerm: int, m: int)
    requires coupon > 0.0 && 0 <= m <= originalTerm && originalTerm >= 1
    ensures SchBalanceFactorFixedRate(coupon, originalTerm, m).value.value ==
            BalanceRatio(MonthlyRate(coupon), m, originalTerm)
  {
    BalanceRatioBounds(MonthlyRate(coupon), m, originalTerm);
  }

  /** The single-period scheduled payment (annuity factor) scaled by the
      beginning balance; zero at maturity and balance/M at a zero coupon.
      The payment covers more than the interest and at most the whole
      balance plus interest, which it equals in the last period. */
  function SchPaymentFactor(coupon: real, remainingTerm: int, beginningBalance: real): (res: Result<Advised<real>>)
    ensures remainingTerm < 0 ==> res == Err(NegativeRemainingTerm)
    ensures remainingTerm >= 0 && coupon < 0.0 ==> res == Err(NegativeCoupon)
    ensures res.Ok? <==> remainingTerm >= 0 && coupon >= 0.0
    ensures res.Ok? && remainingTerm == 0 ==> res.value == Advised(0.0, [MaturityBalance])
    ensures res.Ok? && remainingTerm > 0 && coupon == 0.0 ==>
              res.value == Advised(beginningBalance / remainingTerm as real, [StraightLine])
    ensures res.Ok? && remainingTerm > 0 && coupon > 0.0 ==> res.value.warnings == []
    ensures res.Ok? && remainingTerm == 1 && coupon > 0.0 ==>
              res.value.value == beginningBalance * (1.0 + MonthlyRate(coupon))
  {
    if remainingTerm < 0 then Err(NegativeRemainingTerm)
    else if coupon < 0.0 then Err(NegativeCoupon)
    else if remainingTerm == 0 then Ok(Advised(0.0, [MaturityBalance]))
    else if coupon == 0.0 then Ok(Advised(beginningBalance / remainingTerm as real, [StraightLine]))
    else
      Ok(Advised(beginningBalance * AnnuityFactor(MonthlyRate(coupon), remainingTerm), []))
  }

  /** With a positive coupon the scheduled payment on a positive balance
      covers more than the interest due, and at most the balance plus that
      interest. */
  lemma PaymentCoversInterest(coupon: real, remainingTerm: int, beginningBalance: real)
    requires remainingTerm >= 1 && coupon > 0.0 && beginningBalance > 0.0
    ensures beginningBalance * MonthlyRate(coupon) < SchPaymentFactor(coupon, remainingTerm, beginningBalance).value.value
    ensures SchPaymentFactor(coupon, remainingTerm, beginningBalance).value.value <=
            beginningBalance * (1.0 + MonthlyRate(coupon))
  {
    var r := MonthlyRate(coupon);
    var af := AnnuityFactor(r, remainingTerm);
    ScaledBounds(beginningBalance, r, af, SchPaymentFactor(coupon, remainingTerm, beginningBalance).value.value);
  }

  lemma ScaledBounds(b: real, r: real, af: real, p: real)
    requires r < af <= 1.0 + r && b > 0.0 && p == b * af
    ensures b * r < p <= b * (1.0 + r)
  {
    ScaledAbove(b, r, af, p);
    ScaledBelowBound(b, 1.0 + r, af, p);
  }

  lemma ScaledAbove(b: real, x: real, af: real, p: real)
    requires x < af && b > 0.0 && p == b * af
    ensures b * x < p
  {
  }

  lemma ScaledBelowBound(b: real, y: real, af: real, p: real)
    requires af <= y && b > 0.0 && p == b * af
    ensures p <= b * y
  {
    ProductMonotone(af, y, b);
  }

  /** The payment is linear in the beginning balance. */
  lemma PaymentFactorLinear(coupon: real, remainingTerm: int, beginningBalance: real)
    requires remainingTerm >= 0 && coupon >= 0.0
    ensures SchPaymentFactor(coupon, remainingTerm, beginningBalance).value.value ==
            beginningBalance * SchPaymentFactor(coupon, remainingTerm, 1.0).value.value
  {
  }

  /** The single-period amortization factor: the fraction of any beginning
      balance that is paid down as principal, AF - r. */
  function AmFactor(beginningBalance: real, coupon: real, remainingTerm: int): (res: Result<Advised<real>>)
    ensures remainingTerm < 0 ==> res == Err(NegativeRemainingTerm)
    ensures remainingTerm >= 0 && coupon < 0.0 ==> res == Err(NegativeCoupon)
    ensures res.Ok? <==> remainingTerm >= 0 && coupon >= 0.0
    ensures res.Ok? && remainingTerm == 0 ==> res.value.value == 0.0
    ensures res.Ok? && remainingTerm >= 1 ==>
              res.value.value == SchPaymentFactor(coupon, remainingTerm, 1.0).value.value - MonthlyRate(coupon)
    ensures res.Ok? && remainingTerm >= 1 ==> 0.0 < res.value.value <= 1.0
    ensures res.Ok? && remainingTerm == 1 ==> res.value.value == 1.0
    ensures res.Ok? ==> res.value.warnings == SchPaymentFactor(coupon, remainingTerm, 1.0).value.warnings
    ensures res.Ok? && remainingTerm > 0 && coupon > 0.0 ==> res.value.warnings == []
  {
    if remainingTerm < 0 then Err(NegativeRemainingTerm)
    else if coupon < 0.0 then Err(NegativeCoupon)
    else if remainingTerm == 0 then Ok(Advised(0.0, [MaturityBalance]))
    else if coupon == 0.0 then
      UnitFraction(1.0, remainingTerm as real);
      Ok(Advised(1.0 / remainingTerm as real, [StraightLine]))
    else
      var r := MonthlyRate(coupon);
      Ok(Advised(AnnuityFactor(r, remainingTerm) - r, []))
  }

  /** Gross payment of the period that starts with M months remaining, as a
      fraction of original par, computed the BMA way: principal
      BAL(M) - BAL(M-1) plus interest BAL(M)*C/1200.  It equals the scheduled
      payment on the balance BAL(M), and it is the same in every period. */
  function SchPaymentFactorFixedRate(coupon: real, originalTerm: int, remainingTerm: int): (res: Result<Advised<real>>)
    ensures res.Ok? <==> 1 <= remainingTerm <= originalTerm && coupon >= 0.0
    ensures res.Ok? ==>
              res.value.value == SchPaymentFactor(coupon, remainingTerm,
                SchBalanceFactorFixedRate(coupon, originalTerm, remainingTerm).value.value).value.value
              == SchPaymentFactor(coupon, originalTerm, 1.0).value.value
    ensures var hi := SchBalanceFactorFixedRate(coupon, originalTerm, remainingTerm);
            var lo := SchBalanceFactorFixedRate(coupon, originalTerm, remainingTerm - 1);
            && (res.Err? ==> res.error == (if hi.Err? then hi.error else lo.error))
            && (res.Ok? ==> res.value.warnings == hi.value.warnings + lo.value.warnings)
  {
    var hi := SchBalanceFactorFixedRate(coupon, originalTerm, remainingTerm);
    if hi.Err? then Err(hi.error)
    else
      var lo := SchBalanceFactorFixedRate(coupon, originalTerm, remainingTerm - 1);
      if lo.Err? then Err(lo.error)
      else
        PaymentDecomposition(coupon, originalTerm, remainingTerm, hi.value.value, lo.value.value);
        Ok(Advised(BalanceStepPayment(coupon, hi.value.value, lo.value.value), hi.value.warnings + lo.value.warnings))
  }

  /** The errors and advisories of the payment factor, case by case: the
      BAL(M) call fails first, then BAL(M-1), which fails at M = 0 unless
      the coupon is negative; BAL(0)
      at M = 1 raises the maturity advisory, and a zero coupon raises the
      straight-line advisory from each call that has months left. */
  lemma PaymentFactorFixedRateAdvisories(coupon: real, originalTerm: int, remainingTerm: int)
    ensures var res := SchPaymentFactorFixedRate(coupon, originalTerm, remainingTerm);
            && (originalTerm <= 0 ==> res == Err(NonPositiveOriginalTerm))
            && (originalTerm > 0 && remainingTerm < 0 ==> res == Err(NegativeRemainingTerm))
            && (0 < originalTerm < remainingTerm ==> res == Err(RemainingTermExceedsOriginal))
            && (0 <= remainingTerm <= originalTerm && 0 < originalTerm && coupon < 0.0 ==> res == Err(NegativeCoupon))
            && (originalTerm > 0 && remainingTerm == 0 && coupon >= 0.0 ==> res == Err(NegativeRemainingTerm))
            && (res.Ok? ==>
                  res.value.warnings ==
                  (if coupon == 0.0 then [StraightLine] + (if remainingTerm == 1 then [MaturityBalance] else [StraightLine])
                   else if remainingTerm == 1 then [MaturityBalance] else []))
  {
  }

  /** The payment that takes the balance from BAL(M) down to BAL(M-1)
      while paying the month's interest on BAL(M). */
  function BalanceStepPayment(coupon: real, hi: real, lo: real): real
  {
    hi - lo + hi * coupon / 1200.0
  }

  lemma PaymentDecomposition(coupon: real, t: int, m: int, hi: real, lo: real)
    requires 1 <= m <= t && coupon >= 0.0
    requires hi == SchBalanceFactorFixedRate(coupon, t, m).value.value
    requires lo == SchBalanceFactorFixedRate(coupon, t, m - 1).value.value
    ensures BalanceStepPayment(coupon, hi, lo) == SchPaymentFactor(coupon, m, hi).value.value
    ensures BalanceStepPayment(coupon, hi, lo) == SchPaymentFactor(coupon, t, 1.0).value.value
  {
    assert BalanceStepPayment(coupon, hi, lo) == hi - lo + hi * coupon / 1200.0;
    if coupon == 0.0 {
      assert hi == m as real / t as real;
      assert lo == (m - 1) as real / t as real;
      StraightLinePayment(m, t, hi, lo);
      assert hi * coupon / 1200.0 == 0.0;
      assert SchPaymentFactor(coupon, m, hi).value.value == hi / m as real;
      assert SchPaymentFactor(coupon, t, 1.0).value.value == 1.0 / t as real;
    } else {
      PositiveRateDecomposition(coupon, t, m, hi, lo);
    }
  }

  lemma PositiveRateDecomposition(coupon: real, t: int, m: int, hi: real, lo: real)
    requires 1 <= m <= t && coupon > 0.0
    requires hi == SchBalanceFactorFixedRate(coupon, t, m).value.value
    requires lo == SchBalanceFactorFixedRate(coupon, t, m - 1).value.value
    ensures hi - lo + hi * coupon / 1200.0 == SchPaymentFactor(coupon, m, hi).value.value
    ensures hi - lo + hi * coupon / 1200.0 == SchPaymentFactor(coupon, t, 1.0).value.value
  {
    var r := MonthlyRate(coupon);
    FixedRateIsBalanceRatio(coupon, t, m);
    FixedRateIsBalanceRatio(coupon, t, m - 1);
    AnnuityDecomposition(coupon, r, m, t, hi, lo);
    PositivePayment(coupon, m, hi);
    PositivePayment(coupon, t, 1.0);
  }

  lemma PositivePayment(coupon: real, m: int, b: real)
    requires coupon > 0.0 && m >= 1
    ensures SchPaymentFactor(coupon, m, b).value.value == b * AnnuityFactor(MonthlyRate(coupon), m)
  {
  }

  lemma AnnuityDecomposition(coupon: real, r: real, m: nat, t: nat, hi: real, lo: real)
    requires r == coupon / 1200.0 && r > 0.0 && 1 <= m <= t
    requires hi == BalanceRatio(r, m, t) && lo == BalanceRatio(r, m - 1, t)
    ensures hi - lo + hi * coupon / 1200.0 == hi * AnnuityFactor(r, m) == 1.0 * AnnuityFactor(r, t)
  {
    BalanceRatioStep(r, m, t);
    LevelPayment(r, m, t);
    PrincipalPlusInterest(hi, lo, coupon, AnnuityFactor(r, m));
  }

  lemma StraightLinePayment(m: nat, t: nat, hi: real, lo: real)
    requires 1 <= m && 1 <= t
    requires hi == m as real / t as real && lo == (m - 1) as real / t as real
    ensures hi - lo == hi / m as real == 1.0 / t as real
  {
    var a, b := m as real, t as real;
    assert hi - lo == 1.0 / b;
    assert hi / a == 1.0 / b;
  }

  lemma PrincipalPlusInterest(hi: real, lo: real, coupon: real, af: real)
    requires lo == hi * (1.0 - (af - coupon / 1200.0))
    ensures hi - lo + hi * coupon / 1200.0 == hi * af
  {
  }

  /** Scheduled amortization factor 1 - BAL(M-1)/BAL(M) of the period that
      starts with M months remaining: the same as the single-period
      amortization factor AF(M) - r. */
  function SchAmFactorFixedRate(coupon: real, originalTerm: int, remainingTerm: int): (res: Result<Advised<real>>)
    ensures res.Ok? <==> 1 <= remainingTerm <= originalTerm && coupon >= 0.0
    ensures res.Ok? ==> res.value.value == AmFactor(1.0, coupon, remainingTerm).value.value
    ensures var lo := SchBalanceFactorFixedRate(coupon, originalTerm, remainingTerm - 1);
            var hi := SchBalanceFactorFixedRate(coupon, originalTerm, remainingTerm);
            && (res.Err? ==> res.error == (if lo.Err? then lo.error else hi.error))
            && (res.Ok? ==> res.value.warnings == lo.value.warnings + hi.value.warnings)
  {
    var lo :- SchBalanceFactorFixedRate(coupon, originalTerm, remainingTerm - 1);
    var hi :- SchBalanceFactorFixedRate(coupon, originalTerm, remainingTerm);
    AmortizationIsSurvivalComplement(coupon, originalTerm, remainingTerm, hi.value, lo.value);
    Ok(Advised(1.0 - lo.value / hi.value, lo.warnings + hi.warnings))
  }

  /** The errors and advisories of the amortization factor: here BAL(M-1)
      is computed first, so M = 0 fails on it and M = T + 1 fails on BAL(M)
      unless the coupon is negative. */
  lemma AmFactorFixedRateAdvisories(coupon: real, originalTerm: int, remainingTerm: int)
    ensures var res := SchAmFactorFixedRate(coupon, originalTerm, remainingTerm);
            && (originalTerm <= 0 ==> res == Err(NonPositiveOriginalTerm))
            && (originalTerm > 0 && remainingTerm <= 0 ==> res == Err(NegativeRemainingTerm))
            && (0 < originalTerm && originalTerm + 1 < remainingTerm ==> res == Err(RemainingTermExceedsOriginal))
            && (1 <= remainingTerm <= originalTerm + 1 && 0 < originalTerm && coupon < 0.0 ==> res == Err(NegativeCoupon))
            && (0 < originalTerm && remainingTerm == originalTerm + 1 && coupon >= 0.0 ==>
                  res == Err(RemainingTermExceedsOriginal))
            && (res.Ok? ==>
                  res.value.warnings ==
                  (if remainingTerm == 1 then [MaturityBalance] + (if coupon == 0.0 then [StraightLine] else [])
                   else if coupon == 0.0 then [StraightLine, StraightLine] else []))
  {
  }

  lemma AmortizationIsSurvivalComplement(coupon: real, t: int, m: int, hi: real, lo: real)
    requires 1 <= m <= t && coupon >= 0.0
    requires hi == SchBalanceFactorFixedRate(coupon, t, m).value.value
    requires lo == SchBalanceFactorFixedRate(coupon, t, m - 1).value.value
    ensures hi != 0.0 && 1.0 - lo / hi == AmFactor(1.0, coupon, m).value.value
  {
    if coupon == 0.0 {
      assert hi == m as real / t as real;
      assert lo == (m - 1) as real / t as real;
      StraightLineComplement(m, t, hi, lo);
      assert AmFactor(1.0, coupon, m).value.value == 1.0 / m as real;
    } else {
      var r := MonthlyRate(coupon);
      FixedRateIsBalanceRatio(coupon, t, m);
      FixedRateIsBalanceRatio(coupon, t, m - 1);
      AnnuityComplement(r, m, t, hi, lo);
      assert AmFactor(1.0, coupon, m).value.value == AnnuityFactor(r, m) - r;
    }
  }

  lemma StraightLineComplement(m: nat, t: nat, hi: real, lo: real)
    requires 1 <= m <= t && hi == m as real / t as real && lo == (m - 1) as real / t as real
    ensures hi != 0.0 && 1.0 - lo / hi == 1.0 / m as real
  {
    StraightLineStep(m, t);
    SurvivalComplement(hi, lo, 1.0 / m as real);
  }

  lemma AnnuityComplement(r: real, m: nat, t: nat, hi: real, lo: real)
    requires r > 0.0 && 1 <= m <= t && hi == BalanceRatio(r, m, t) && lo == BalanceRatio(r, m - 1, t)
    ensures hi != 0.0 && 1.0 - lo / hi == AnnuityFactor(r, m) - r
  {
    BalanceRatioBounds(r, m, t);
    BalanceRatioStep(r, m, t);
    SurvivalComplement(hi, lo, AnnuityFactor(r, m) - r);
  }

  /** Straight-line step: (m/t) * (1 - 1/m) = (m-1)/t. */
  lemma StraightLineStep(m: nat, t: nat)
    requires 1 <= m && 1 <= t
    ensures (m - 1) as real / t as real == (m as real / t as real) * (1.0 - 1.0 / m as real)
  {
    var a, b := m as real, t as real;
    assert (a / b) * (1.0 - 1.0 / a) == (a / b) - (a / b) * (1.0 / a);
    assert (a / b) * (1.0 / a) == 1.0 / b;
  }

  lemma SurvivalComplement(hi: real, lo: real, am: real)
    requires hi > 0.0 && lo == hi * (1.0 - am)
    ensures 1.0 - lo / hi == am
  {
    var x := lo / hi;
    assert x * hi == lo;
    CancelEqual(x, 1.0 - am, hi);
  }

  lemma CancelEqual(x: real, y: real, q: real)
    requires q != 0.0 && x * q == y * q
    ensures x == y
  {
    assert (x - y) * q == 0.0;
  }

  /** The one-step survival recursion of the closed form:
      BAL(M-1) = BAL(M) * (1 - am(M)). */
  lemma FixedRateStep(coupon: real, t: int, m: int)
    requires 1 <= m <= t && coupon >= 0.0
    ensures SchBalanceFactorFixedRate(coupon, t, m - 1).value.value ==
            SchBalanceFactorFixedRate(coupon, t, m).value.value * (1.0 - AmFactor(1.0, coupon, m).value.value)
  {
    if coupon == 0.0 {
      StraightLineFixedStep(t, m);
    } else {
      PositiveRateFixedStep(coupon, t, m);
    }
  }

  lemma StraightLineFixedStep(t: int, m: int)
    requires 1 <= m <= t
    ensures SchBalanceFactorFixedRate(0.0, t, m - 1).value.value ==
            SchBalanceFactorFixedRate(0.0, t, m).value.value * (1.0 - AmFactor(1.0, 0.0, m).value.value)
  {
    assert SchBalanceFactorFixedRate(0.0, t, m).value.value == m as real / t as real;
    assert SchBalanceFactorFixedRate(0.0, t, m - 1).value.value == (m - 1) as real / t as real;
    assert AmFactor(1.0, 0.0, m).value.value == 1.0 / m as real;
    StraightLineStep(m, t);
  }

  lemma PositiveRateFixedStep(coupon: real, t: int, m: int)
    requires 1 <= m <= t && coupon > 0.0
    ensures SchBalanceFactorFixedRate(coupon, t, m - 1).value.value ==
            SchBalanceFactorFixedRate(coupon, t, m).value.value * (1.0 - AmFactor(1.0, coupon, m).value.value)
  {
    var r := MonthlyRate(coupon);
    FixedRateIsBalanceRatio(coupon, t, m);
    FixedRateIsBalanceRatio(coupon, t, m - 1);
    assert AmFactor(1.0, coupon, m).value.value == AnnuityFactor(r, m) - r;
    BalanceRatioStep(r, m, t);
  }

  // ---------------------------------------------------------------------------
  // Floating-rate vectors
  // ---------------------------------------------------------------------------

  /** Age-indexed annuity factors: periods[n] = n, rates[n] is the coupon of
      period n (rates[0] = 0 at origination) and paymentFactors[n] the annuity
      factor of period n (0 at origination). */
  datatype PaymentFactorVector = PaymentFactorVector(periods: seq<int>, rates: seq<real>, paymentFactors: seq<real>)

  /** The scheduled trajectory: per-age rates, amortization factors and
      balance factors (fractions of par). */
  datatype BalanceTrajectory =
    BalanceTrajectory(periods: seq<int>, rates: seq<real>, amFactors: seq<real>, balanceFactors: seq<real>)

  function Range(n: nat): (s: seq<int>)
    ensures |s| == n && forall i :: 0 <= i < n ==> s[i] == i
  {
    seq(n, i => i)
  }

  function Fill(n: nat, x: real): (s: seq<real>)
    ensures |s| == n && forall i :: 0 <= i < n ==> s[i] == x
  {
    seq(n, _ => x)
  }

  /** Periods before the vector's first rate: history not covered by it. */
  function BackFill(given: nat, history: int): nat
  {
    if history - given > 0 then history - given else 0
  }

  /** Every coupon keeps the monthly base 1 + C/1200 positive. */
  predicate CouponsAboveFloor(cv: seq<real>)
  {
    forall k :: 0 <= k < |cv| ==> cv[k] > -1200.0
  }

  /** Age-indexed coupon vector for n periods, [0] followed by one coupon per
      period.  A single coupon is repeated; a vector at least n long is
      truncated; a shorter one is extended backwards with its oldest rate to
      cover the history not in it and forwards with its newest rate. */
  function ExtendedRates(cv: seq<real>, history: int, n: nat): (rates: seq<real>)
    requires |cv| >= 1
    ensures |rates| == n + 1 && rates[0] == 0.0
    ensures forall k :: 1 <= k <= n ==> rates[k] in cv
    ensures |cv| == 1 ==> forall k :: 1 <= k <= n ==> rates[k] == cv[0]
    ensures 1 < |cv| && n <= |cv| ==> forall k :: 1 <= k <= n ==> rates[k] == cv[k - 1]
    ensures 1 < |cv| < n ==>
              var back := BackFill(|cv|, history);
              forall k :: 1 <= k <= n ==>
                rates[k] == (if k <= back then cv[0] else if k <= back + |cv| then cv[k - back - 1] else cv[|cv| - 1])
  {
    if |cv| == 1 then [0.0] + Fill(n, cv[0])
    else if |cv| >= n then [0.0] + cv[..n]
    else
      var back := BackFill(|cv|, history);
      var forward := if n - |cv| - back > 0 then n - |cv| - back else 0;
      var all := [0.0] + Fill(back, cv[0]) + cv + Fill(forward, cv[|cv| - 1]);
      assert forall k :: 1 <= k <= n ==>
        all[k] == (if k <= back then cv[0] else if k <= back + |cv| then cv[k - back - 1] else cv[|cv| - 1]);
      all[..n + 1]
  }

  /** The one case the model does not cover: asking for more periods than
      the original term, where the remaining term would reach zero or below. */
  predicate PastMaturity(cv: seq<real>, originalTerm: int, remainingTerm: int, numPeriods: int)
  {
    numPeriods > 0 && originalTerm > 0 && |cv| > 0 && 0 <= remainingTerm <= originalTerm && numPeriods > originalTerm
  }

  function HistoryWarnings(cv: seq<real>, history: int, n: nat): seq<Warning>
  {
    if 1 < |cv| < n && BackFill(|cv|, history) > 0 then [ExtendedHistory(BackFill(|cv|, history))] else []
  }

  /** Vectorized annuity factors for a (possibly floating) coupon vector over
      numPeriods periods; period n starts with M = originalTerm - (n-1)
      months remaining. */
  function SchPaymentFactorVector(cv: seq<real>, originalTerm: int, remainingTerm: int, numPeriods: int)
    : (res: Result<Advised<PaymentFactorVector>>)
    requires CouponsAboveFloor(cv)
    requires !PastMaturity(cv, originalTerm, remainingTerm, numPeriods)
    ensures numPeriods <= 0 ==> res == Ok(Advised(PaymentFactorVector([0], [0.0], [0.0]), []))
    ensures numPeriods > 0 && originalTerm <= 0 ==> res == Err(NonPositiveOriginalTerm)
    ensures numPeriods > 0 && originalTerm > 0 && |cv| == 0 ==> res == Err(EmptyCouponVector)
    ensures numPeriods > 0 && originalTerm > 0 && |cv| > 0 && !(0 <= remainingTerm <= originalTerm) ==>
              res == Err(RemainingTermOutOfRange)
    ensures res.Ok? <==> numPeriods <= 0 || (originalTerm > 0 && |cv| > 0 && 0 <= remainingTerm <= originalTerm)
    ensures res.Ok? ==>
              var v := res.value.value;
              var n := if numPeriods > 0 then numPeriods else 0;
              && v.periods == Range(n + 1) && |v.rates| == |v.paymentFactors| == n + 1
              && v.rates[0] == 0.0 && v.paymentFactors[0] == 0.0
    ensures res.Ok? && numPeriods > 0 ==>
              && res.value.value.rates == ExtendedRates(cv, originalTerm - remainingTerm, numPeriods)
              && res.value.warnings == HistoryWarnings(cv, originalTerm - remainingTerm, numPeriods)
    ensures res.Ok? && numPeriods > 0 ==>
              var v := res.value.value;
              forall k :: 1 <= k <= numPeriods ==>
                v.paymentFactors[k] == PeriodAnnuity(MonthlyRate(v.rates[k]), originalTerm - k + 1)
  {
    if numPeriods <= 0 then Ok(Advised(PaymentFactorVector([0], [0.0], [0.0]), []))
    else if originalTerm <= 0 then Err(NonPositiveOriginalTerm)
    else if |cv| == 0 then Err(EmptyCouponVector)
    else if remainingTerm < 0 || remainingTerm > originalTerm then Err(RemainingTermOutOfRange)
    else
      var rates := ExtendedRates(cv, originalTerm - remainingTerm, numPeriods);
      RatesAboveFloor(cv, originalTerm - remainingTerm, numPeriods);
      Ok(Advised(PaymentFactorVector(Range(numPeriods + 1), rates, PeriodFactors(rates, originalTerm)),
                 HistoryWarnings(cv, originalTerm - remainingTerm, numPeriods)))
  }

  /** Every extended rate is one of the given coupons, so each stays above
      the floor. */
  lemma RatesAboveFloor(cv: seq<real>, history: int, n: nat)
    requires |cv| >= 1 && CouponsAboveFloor(cv)
    ensures var rates := ExtendedRates(cv, history, n);
            forall k :: 1 <= k <= n ==> rates[k] > -1200.0
  {
    var rates := ExtendedRates(cv, history, n);
    forall k | 1 <= k <= n
      ensures rates[k] > -1200.0
    {
      assert rates[k] in cv;
    }
  }

  /** [0] followed by the annuity factor of each age k >= 1 at its own rate,
      with M = originalTerm - k + 1 months remaining. */
  function PeriodFactors(rates: seq<real>, originalTerm: int): (pf: seq<real>)
    requires |rates| >= 1 && |rates| - 1 <= originalTerm
    requires forall k :: 1 <= k < |rates| ==> rates[k] > -1200.0
    ensures |pf| == |rates| && pf[0] == 0.0
    ensures forall k :: 1 <= k < |rates| ==> pf[k] == PeriodAnnuity(MonthlyRate(rates[k]), originalTerm - k + 1)
  {
    [0.0] + seq(|rates| - 1, k requires 0 <= k < |rates| - 1 =>
                  PeriodAnnuity(MonthlyRate(rates[k + 1]), originalTerm - k))
  }

  /** At a non-negative rate the per-period annuity is the single-period
      payment factor on a unit balance. */
  lemma PeriodAnnuityIsPaymentFactor(coupon: real, m: int)
    requires coupon >= 0.0 && m >= 1
    ensures PeriodAnnuity(MonthlyRate(coupon), m) == SchPaymentFactor(coupon, m, 1.0).value.value
  {
    if coupon == 0.0 {
      assert MonthlyRate(coupon) == 0.0;
    } else {
      PositivePayment(coupon, m, 1.0);
    }
  }

  /** Each period of the vector at a non-negative coupon carries the
      single-period payment factor at M = originalTerm - k + 1. */
  lemma VectorFactorIsPaymentFactor(cv: seq<real>, originalTerm: int, remainingTerm: int, numPeriods: int, k: int)
    requires CouponsAboveFloor(cv)
    requires !PastMaturity(cv, originalTerm, remainingTerm, numPeriods)
    requires SchPaymentFactorVector(cv, originalTerm, remainingTerm, numPeriods).Ok?
    requires 1 <= k <= numPeriods
    requires SchPaymentFactorVector(cv, originalTerm, remainingTerm, numPeriods).value.value.rates[k] >= 0.0
    ensures var v := SchPaymentFactorVector(cv, originalTerm, remainingTerm, numPeriods).value.value;
            v.paymentFactors[k] == SchPaymentFactor(v.rates[k], originalTerm - k + 1, 1.0).value.value
  {
    var v := SchPaymentFactorVector(cv, originalTerm, remainingTerm, numPeriods).value.value;
    PeriodAnnuityIsPaymentFactor(v.rates[k], originalTerm - k + 1);
  }

  /** The balance path of a payment-factor vector: am = pf - C/1200 per age
      and BAL the running product of the survival factors 1 - am, which is 1
      at origination. */
  function Trajectory(v: PaymentFactorVector): (b: BalanceTrajectory)
    requires |v.paymentFactors| == |v.rates| >= 1 && v.paymentFactors[0] == 0.0 && v.rates[0] == 0.0
    ensures b.periods == v.periods && b.rates == v.rates
    ensures |b.amFactors| == |b.balanceFactors| == |v.rates|
    ensures b.amFactors[0] == 0.0 && b.balanceFactors[0] == 1.0
    ensures forall k :: 0 <= k < |v.rates| ==> b.amFactors[k] == v.paymentFactors[k] - MonthlyRate(v.rates[k])
    ensures forall k :: 1 <= k < |v.rates| ==> b.balanceFactors[k] == b.balanceFactors[k - 1] * (1.0 - b.amFactors[k])
  {
    var am := seq(|v.rates|, k requires 0 <= k < |v.rates| => v.paymentFactors[k] - MonthlyRate(v.rates[k]));
    BalanceTrajectory(v.periods, v.rates, am, SurvivalBalances(am))
  }

  /** Balance factors from amortization factors: the running product
      (numpy's cumprod) of the survival factors 1 - am, starting from 1
      (am[0] is 0). */
  function SurvivalBalances(am: seq<real>): (bal: seq<real>)
    requires |am| >= 1 && am[0] == 0.0
    ensures |bal| == |am| && bal[0] == 1.0
    ensures forall k :: 1 <= k < |am| ==> bal[k] == bal[k - 1] * (1.0 - am[k])
  {
    seq(|am|, k requires 0 <= k < |am| => Surviving(am, k))
  }

  /** The product of the survival factors 1 - am[j] for j in 0..k. */
  function Surviving(am: seq<real>, k: nat): real
    requires k < |am| && am[0] == 0.0
  {
    if k == 0 then 1.0 else Surviving(am, k - 1) * (1.0 - am[k])
  }

  /** The product of the survival factors 1 - am[k] for ages k in a+1 .. a+n. */
  function WindowSurvival(am: seq<real>, a: nat, n: nat): real
    requires a + n < |am|
  {
    if n == 0 then 1.0 else WindowSurvival(am, a, n - 1) * (1.0 - am[a + n])
  }

  /** The path bal multiplies by 1 - am[k] at age k. */
  predicate SurvivalStep(am: seq<real>, bal: seq<real>, k: nat)
  {
    1 <= k < |am| && k < |bal| && bal[k] == bal[k - 1] * (1.0 - am[k])
  }

  /** Along any path that multiplies by 1 - am[k] at each age k of a window,
      the balance n ages after age a is the balance at a times the survival
      factors of ages a+1 .. a+n. */
  lemma {:induction false} SurvivalOverWindow(am: seq<real>, bal: seq<real>, a: nat, n: nat)
    requires a + n < |am| && a + n < |bal|
    requires forall k :: a < k <= a + n ==> SurvivalStep(am, bal, k)
    ensures bal[a + n] == bal[a] * WindowSurvival(am, a, n)
  {
    if n > 0 {
      SurvivalOverWindow(am, bal, a, n - 1);
      assert SurvivalStep(am, bal, a + n);
      ChainStep(bal[a], bal[a + n - 1], bal[a + n], WindowSurvival(am, a, n - 1), 1.0 - am[a + n],
                WindowSurvival(am, a, n));
    }
  }

  lemma ChainStep(b0: real, prev: real, next: real, p: real, x: real, w: real)
    requires prev == b0 * p && next == prev * x && w == p * x
    ensures next == b0 * w
  {
  }

  /** The same as a ratio, when the balance at age a is not zero. */
  lemma RatioOverWindow(am: seq<real>, bal: seq<real>, a: nat, n: nat)
    requires a + n < |am| && a + n < |bal| && bal[a] != 0.0
    requires forall k :: a < k <= a + n ==> SurvivalStep(am, bal, k)
    ensures bal[a + n] / bal[a] == WindowSurvival(am, a, n)
  {
    SurvivalOverWindow(am, bal, a, n);
    QuotientOfProduct(bal[a], WindowSurvival(am, a, n), bal[a + n]);
  }

  lemma QuotientOfProduct(x: real, w: real, y: real)
    requires x != 0.0 && y == x * w
    ensures y / x == w
  {
  }

  /** On the balance path of a payment-factor vector, the ratio of the
      balance n ages after age a to the balance at a is the window's
      survival product. */
  lemma TrajectoryWindowRatio(v: PaymentFactorVector, a: nat, n: nat)
    requires |v.paymentFactors| == |v.rates| >= 1 && v.paymentFactors[0] == 0.0 && v.rates[0] == 0.0
    requires a + n < |v.rates| && Trajectory(v).balanceFactors[a] != 0.0
    ensures var b := Trajectory(v);
            b.balanceFactors[a + n] / b.balanceFactors[a] == WindowSurvival(b.amFactors, a, n)
  {
    var b := Trajectory(v);
    forall k | a < k <= a + n
      ensures SurvivalStep(b.amFactors, b.balanceFactors, k)
    {
    }
    RatioOverWindow(b.amFactors, b.balanceFactors, a, n);
  }

  /** The scheduled trajectory of a coupon vector: the balance path of its
      payment-factor vector, with the same errors and warnings. */
  function SchBalanceFactors(cv: seq<real>, originalTerm: int, remainingTerm: int, numPeriods: int)
    : (res: Result<Advised<BalanceTrajectory>>)
    requires CouponsAboveFloor(cv)
    requires !PastMaturity(cv, originalTerm, remainingTerm, numPeriods)
    ensures var pfv := SchPaymentFactorVector(cv, originalTerm, remainingTerm, numPeriods);
            && (res.Ok? <==> pfv.Ok?)
            && (res.Err? ==> res.error == pfv.error)
            && (res.Ok? ==> res.value == Advised(Trajectory(pfv.value.value), pfv.value.warnings))
  {
    var pfv :- SchPaymentFactorVector(cv, originalTerm, remainingTerm, numPeriods);
    Ok(Advised(Trajectory(pfv.value), pfv.warnings))
  }

  /** BAL at the loan's current age, originalTerm - remainingTerm; 1 when no
      period has elapsed. */
  function SchEndingBalanceFactor(cv: seq<real>, originalTerm: int, remainingTerm: int): (res: Result<Advised<real>>)
    requires CouponsAboveFloor(cv)
    ensures res.Ok? <==> originalTerm - remainingTerm <= 0 || (|cv| > 0 && 0 <= remainingTerm <= originalTerm)
    ensures originalTerm - remainingTerm <= 0 ==> res == Ok(Advised(1.0, []))
    ensures res.Ok? ==>
              var b := SchBalanceFactors(cv, originalTerm, remainingTerm, originalTerm - remainingTerm).value.value;
              res.value.value == b.balanceFactors[|b.balanceFactors| - 1]
    ensures res.Ok? && originalTerm - remainingTerm > 0 ==>
              res.value.warnings == HistoryWarnings(cv, originalTerm - remainingTerm, originalTerm - remainingTerm)
    ensures res.Err? ==>
              res.error == SchBalanceFactors(cv, originalTerm, remainingTerm, originalTerm - remainingTerm).error
  {
    var traj :- SchBalanceFactors(cv, originalTerm, remainingTerm, originalTerm - remainingTerm);
    var bal := traj.value.balanceFactors;
    Ok(Advised(bal[|bal| - 1], traj.warnings))
  }

  /** The error of the ending balance factor, once a period has elapsed: a
      non-positive original term first, then an empty coupon vector, then a
      remaining term out of range. */
  lemma EndingBalanceFactorErrors(cv: seq<real>, originalTerm: int, remainingTerm: int)
    requires CouponsAboveFloor(cv) && originalTerm - remainingTerm > 0
    ensures originalTerm <= 0 ==> SchEndingBalanceFactor(cv, originalTerm, remainingTerm) == Err(NonPositiveOriginalTerm)
    ensures originalTerm > 0 && |cv| == 0 ==> SchEndingBalanceFactor(cv, originalTerm, remainingTerm) == Err(EmptyCouponVector)
    ensures originalTerm > 0 && |cv| > 0 && remainingTerm < 0 ==>
              SchEndingBalanceFactor(cv, originalTerm, remainingTerm) == Err(RemainingTermOutOfRange)
  {
  }

  /** With every coupon equal to C >= 0, the vector path agrees with the
      fixed-rate closed form at every age: BAL[n] = BAL(C, T, T - n). */
  lemma ConstantCouponTrajectory(cv: seq<real>, coupon: real, originalTerm: int, remainingTerm: int, numPeriods: int)
    requires |cv| >= 1 && forall k :: 0 <= k < |cv| ==> cv[k] == coupon
    requires coupon >= 0.0 && 0 <= remainingTerm <= originalTerm && 1 <= numPeriods <= originalTerm
    ensures CouponsAboveFloor(cv)
    ensures var res := SchBalanceFactors(cv, originalTerm, remainingTerm, numPeriods);
            && res.Ok?
            && forall n :: 0 <= n <= numPeriods ==>
                 res.value.value.balanceFactors[n] == SchBalanceFactorFixedRate(coupon, originalTerm, originalTerm - n).value.value
  {
    forall n | 0 <= n <= numPeriods
      ensures SchBalanceFactors(cv, originalTerm, remainingTerm, numPeriods).value.value.balanceFactors[n] ==
              SchBalanceFactorFixedRate(coupon, originalTerm, originalTerm - n).value.value
    {
      ConstantCouponBalanceAt(cv, coupon, originalTerm, remainingTerm, numPeriods, n);
    }
  }

  /** The same agreement at one age n. */
  lemma ConstantCouponBalanceAt(cv: seq<real>, coupon: real, originalTerm: int, remainingTerm: int,
                                numPeriods: int, n: nat)
    requires |cv| >= 1 && forall k :: 0 <= k < |cv| ==> cv[k] == coupon
    requires coupon >= 0.0 && 0 <= remainingTerm <= originalTerm && 1 <= numPeriods <= originalTerm
    requires n <= numPeriods
    ensures CouponsAboveFloor(cv)
    ensures var res := SchBalanceFactors(cv, originalTerm, remainingTerm, numPeriods);
            && res.Ok? && |res.value.value.balanceFactors| == numPeriods + 1
            && res.value.value.balanceFactors[n] == SchBalanceFactorFixedRate(coupon, originalTerm, originalTerm - n).value.value
  {
    var v := SchPaymentFactorVector(cv, originalTerm, remainingTerm, numPeriods).value.value;
    forall k | 1 <= k < |v.rates|
      ensures v.paymentFactors[k] - MonthlyRate(v.rates[k]) == AmFactor(1.0, coupon, originalTerm - k + 1).value.value
    {
      ConstantCouponAmFactor(cv, coupon, originalTerm, remainingTerm, numPeriods, k);
    }
    ClosedFormAge(v, coupon, originalTerm, n);
  }

  /** The balance path of any vector whose amortization factors are the
      fixed-rate ones, age by age, is the fixed-rate closed form. */
  lemma TrajectoryClosedForm(v: PaymentFactorVector, coupon: real, originalTerm: int)
    requires coupon >= 0.0 && 1 <= originalTerm && 1 <= |v.rates| <= originalTerm + 1
    requires |v.paymentFactors| == |v.rates| && v.paymentFactors[0] == 0.0 && v.rates[0] == 0.0
    requires forall k :: 1 <= k < |v.rates| ==>
               v.paymentFactors[k] - MonthlyRate(v.rates[k]) == AmFactor(1.0, coupon, originalTerm - k + 1).value.value
    ensures forall n :: 0 <= n < |v.rates| ==>
              Trajectory(v).balanceFactors[n] == SchBalanceFactorFixedRate(coupon, originalTerm, originalTerm - n).value.value
  {
    forall n | 0 <= n < |v.rates|
      ensures Trajectory(v).balanceFactors[n] == SchBalanceFactorFixedRate(coupon, originalTerm, originalTerm - n).value.value
    {
      ClosedFormAge(v, coupon, originalTerm, n);
    }
  }

  lemma {:induction false} ClosedFormAge(v: PaymentFactorVector, coupon: real, originalTerm: int, n: nat)
    requires coupon >= 0.0 && 1 <= originalTerm && n < |v.rates| <= originalTerm + 1
    requires |v.paymentFactors| == |v.rates| && v.paymentFactors[0] == 0.0 && v.rates[0] == 0.0
    requires forall k :: 1 <= k < |v.rates| ==>
               v.paymentFactors[k] - MonthlyRate(v.rates[k]) == AmFactor(1.0, coupon, originalTerm - k + 1).value.value
    ensures Trajectory(v).balanceFactors[n] == SchBalanceFactorFixedRate(coupon, originalTerm, originalTerm - n).value.value
  {
    if n > 0 {
      ClosedFormAge(v, coupon, originalTerm, n - 1);
      ClosedFormAgeStep(v, coupon, originalTerm, n);
    }
  }

  lemma ClosedFormAgeStep(v: PaymentFactorVector, coupon: real, originalTerm: int, n: nat)
    requires coupon >= 0.0 && 1 <= originalTerm && 1 <= n < |v.rates| <= originalTerm + 1
    requires |v.paymentFactors| == |v.rates| && v.paymentFactors[0] == 0.0 && v.rates[0] == 0.0
    requires v.paymentFactors[n] - MonthlyRate(v.rates[n]) == AmFactor(1.0, coupon, originalTerm - n + 1).value.value
    requires Trajectory(v).balanceFactors[n - 1] ==
             SchBalanceFactorFixedRate(coupon, originalTerm, originalTerm - n + 1).value.value
    ensures Trajectory(v).balanceFactors[n] == SchBalanceFactorFixedRate(coupon, originalTerm, originalTerm - n).value.value
  {
    var b := Trajectory(v);
    ClosedFormStep(coupon, originalTerm, originalTerm - n + 1,
                   b.balanceFactors[n - 1], b.amFactors[n], b.balanceFactors[n]);
  }

  lemma ClosedFormStep(coupon: real, t: int, m: int, x: real, a: real, p: real)
    requires coupon >= 0.0 && 1 <= m <= t
    requires x == SchBalanceFactorFixedRate(coupon, t, m).value.value
    requires a == AmFactor(1.0, coupon, m).value.value
    requires p == x * (1.0 - a)
    ensures p == SchBalanceFactorFixedRate(coupon, t, m - 1).value.value
  {
    FixedRateStep(coupon, t, m);
  }

  /** With a constant coupon, the vector's amortization factor of period n
      is the single-period factor at M = originalTerm - n + 1. */
  lemma ConstantCouponAmFactor(cv: seq<real>, coupon: real, originalTerm: int, remainingTerm: int,
                               numPeriods: int, n: nat)
    requires |cv| >= 1 && forall k :: 0 <= k < |cv| ==> cv[k] == coupon
    requires coupon >= 0.0 && 0 <= remainingTerm <= originalTerm && 1 <= numPeriods <= originalTerm
    requires 1 <= n <= numPeriods
    ensures CouponsAboveFloor(cv)
    ensures var v := SchPaymentFactorVector(cv, originalTerm, remainingTerm, numPeriods).value.value;
            v.paymentFactors[n] - MonthlyRate(v.rates[n]) == AmFactor(1.0, coupon, originalTerm - n + 1).value.value
  {
    var v := SchPaymentFactorVector(cv, originalTerm, remainingTerm, numPeriods).value.value;
    assert v.rates[n] in cv;
    assert v.rates[n] == coupon;
    VectorFactorIsPaymentFactor(cv, originalTerm, remainingTerm, numPeriods, n);
  }

  /** With every coupon equal to C >= 0, the ending balance factor is the
      fixed-rate closed form BAL(C, T, M). */
  lemma ConstantCouponEndingBalance(cv: seq<real>, coupon: real, originalTerm: int, remainingTerm: int)
    requires |cv| >= 1 && forall k :: 0 <= k < |cv| ==> cv[k] == coupon
    requires coupon >= 0.0 && 0 <= remainingTerm <= originalTerm && 1 <= originalTerm
    ensures CouponsAboveFloor(cv)
    ensures SchEndingBalanceFactor(cv, originalTerm, remainingTerm).Ok?
    ensures SchEndingBalanceFactor(cv, originalTerm, remainingTerm).value.value ==
            SchBalanceFactorFixedRate(coupon, originalTerm, remainingTerm).value.value
  {
    assert CouponsAboveFloor(cv);
    var n := originalTerm - remainingTerm;
    if n > 0 {
      ConstantCouponBalanceAt(cv, coupon, originalTerm, remainingTerm, n, n);
      assert originalTerm - n == remainingTerm;
      var b := SchBalanceFactors(cv, originalTerm, remainingTerm, n).value.value;
      assert |b.balanceFactors| - 1 == n;
      assert SchEndingBalanceFactor(cv, originalTerm, remainingTerm).value.value == b.balanceFactors[n];
    } else {
      assert SchEndingBalanceFactor(cv, originalTerm, remainingTerm) == Ok(Advised(1.0, []));
    }
  }
}
