/** The cash-flow runners of section C.3 of the BMA Standard Formulas
    (SF-17 to SF-19): a scheduled roll-forward with no prepayments or
    defaults, and the actual run that applies SMM, MDR and severity curves
    to it.  Each runner fills freshly allocated arrays period by period, as
    the library does, and is specified by a per-period relation between its
    outputs (IsScheduledRun, IsActualRun); the lemmas below are stated about
    those relations.  Coupons here are decimals (0.08 for 8%). */
module Cashflows {
  import opened Wrappers
  import opened Powers
  import opened ScheduledPayments

  // ---------------------------------------------------------------------------
  // Scheduled cash flow
  // ---------------------------------------------------------------------------

  /** Outputs of the scheduled run, one sequence per column. */
  datatype ScheduledCashflow = ScheduledCashflow(
    period: seq<int>,
    beginningBalance: seq<real>,
    scheduledPayment: seq<real>,
    paymentFactor: seq<real>,
    interestBilled: seq<real>,
    interestPaid: seq<real>,
    principalPaid: seq<real>,
    endingBalance: seq<real>,
    poolFactor: seq<real>,
    amortizedBalanceFraction: seq<real>,
    survivalFactor: seq<real>)

  /** The runner's level-payment factor r / (1 - (1+r)^-M), falling back to
      1/M should (1+r)^-M fail to be below one. */
  function RunAnnuityFactor(r: real, m: int): real
    requires r > 0.0 && m >= 1
  {
    var d := InvPow(1.0 + r, m);
    if d < 1.0 then r / (1.0 - d) else 1.0 / m as real
  }

  /** Over exact reals the fallback is never taken: the runner's factor is
      the annuity factor of the balance formulas. */
  lemma RunAnnuityIsAnnuityFactor(r: real, m: int)
    requires r > 0.0 && m >= 1
    ensures RunAnnuityFactor(r, m) == AnnuityFactor(r, m)
  {
    InvPowBelowOne(1.0 + r, m);
  }

  /** The part of an amount that a rate or a factor selects: a month's
      interest, a default or prepayment, an amortized or surviving part. */
  function Share(amount: real, fraction: real): real
  {
    amount * fraction
  }

  /** The level payment that retires `balance` over m periods. */
  function RunnerLevelPayment(balance: real, monthlyRate: real, m: int): real
    requires monthlyRate > 0.0 && m >= 1
  {
    balance * RunAnnuityFactor(monthlyRate, m)
  }

  /** The payment due in a period with `remainingPeriods` left: the level
      payment capped at balance plus interest, or the whole balance plus
      interest when the rate is not positive. */
  function ScheduledPayment(beginning: real, monthlyRate: real, remainingPeriods: int): real
  {
    if remainingPeriods > 0 && monthlyRate > 0.0 then
      MinReal(RunnerLevelPayment(beginning, monthlyRate, remainingPeriods), beginning + Share(beginning, monthlyRate))
    else
      beginning + Share(beginning, monthlyRate)
  }

  /** A balance as a fraction of the original balance (0 for a non-positive one). */
  function Fraction(x: real, originalBalance: real): real
  {
    if originalBalance > 0.0 then x / originalBalance else 0.0
  }

  function SurvivalOf(poolFactor: real, balanceFraction: real): real
  {
    if balanceFraction > 0.0 then poolFactor / balanceFraction else 0.0
  }

  function PaymentFactorOf(survival: real, previousSurvival: real): real
  {
    if previousSurvival > 0.0 then 1.0 - survival / previousSurvival else 0.0
  }

  lemma SelfQuotient(x: real)
    requires x != 0.0
    ensures x / x == 1.0
  {
  }

  /** One period of the scheduled run. */
  datatype ScheduledRow = ScheduledRow(
    beginning: real, payment: real, paymentFactor: real, billed: real, interest: real,
    principal: real, ending: real, pool: real, fraction: real, survival: real)

  /** Period 0: only the current balance and its factors are set. */
  function ScheduledStart(originalBalance: real, currentBalance: real): ScheduledRow
  {
    var f := Fraction(currentBalance, originalBalance);
    ScheduledRow(0.0, 0.0, 0.0, 0.0, 0.0, 0.0, currentBalance, f, f, 1.0)
  }

  /** The period after `prev`, with `remainingPeriods` payments left
      (counting this one), at decimal annual coupon `coupon`. */
  function ScheduledStep(prev: ScheduledRow, originalBalance: real, coupon: real,
                         remainingPeriods: int): (r: ScheduledRow)
    ensures r.beginning == prev.ending
    ensures r.billed == Share(prev.ending, coupon / 12.0)
    ensures r.interest + r.principal == r.payment
    ensures r.ending == r.beginning - r.principal
    ensures r.pool == r.fraction
    ensures r.survival == (if r.fraction > 0.0 then 1.0 else 0.0)
  {
    var rate := coupon / 12.0;
    var b := prev.ending;
    var billed := Share(b, rate);
    var payment := ScheduledPayment(b, rate, remainingPeriods);
    var interest := MinReal(billed, payment);
    var principal := payment - interest;
    var ending := b - principal;
    var pool := Fraction(ending, originalBalance);
    var fraction := Fraction(ending, originalBalance);
    var survival := SurvivalOf(pool, fraction);
    assert fraction > 0.0 ==> survival == 1.0 by {
      if fraction > 0.0 {
        SelfQuotient(fraction);
      }
    }
    ScheduledRow(b, payment, PaymentFactorOf(survival, prev.survival), billed, interest,
                 principal, ending, pool, fraction, survival)
  }

  /** The body of the scheduled loop for one period, in the library's
      order: interest billed, payment (level payment, then the cap),
      interest paid, principal, ending balance and factors. */
  method ScheduledPeriod(prev: ScheduledRow, originalBalance: real, coupon: real,
                         remainingPeriods: int) returns (r: ScheduledRow)
    ensures r == ScheduledStep(prev, originalBalance, coupon, remainingPeriods)
  {
    var monthlyRate := coupon / 12.0;
    var beginning := prev.ending;
    var billed := Share(beginning, monthlyRate);
    var payment: real;
    if remainingPeriods > 0 && monthlyRate > 0.0 {
      payment := RunnerLevelPayment(beginning, monthlyRate, remainingPeriods);
      payment := MinReal(payment, beginning + billed);
    } else {
      payment := beginning + billed;
    }
    var interest := MinReal(billed, payment);
    var principal := payment - interest;
    var ending := beginning - principal;
    var pool := Fraction(ending, originalBalance);
    var fraction := Fraction(ending, originalBalance);
    var survival := SurvivalOf(pool, fraction);
    var paymentFactor := PaymentFactorOf(survival, prev.survival);
    r := ScheduledRow(beginning, payment, paymentFactor, billed, interest, principal,
                      ending, pool, fraction, survival);
  }

  predicate ScheduledShape(s: ScheduledCashflow, n: nat)
  {
    |s.period| == n && |s.beginningBalance| == n && |s.scheduledPayment| == n &&
    |s.paymentFactor| == n && |s.interestBilled| == n && |s.interestPaid| == n &&
    |s.principalPaid| == n && |s.endingBalance| == n && |s.poolFactor| == n &&
    |s.amortizedBalanceFraction| == n && |s.survivalFactor| == n
  }

  /** Period k of the columns, as a row. */
  function ScheduledRowAt(s: ScheduledCashflow, k: nat): ScheduledRow
    requires ScheduledShape(s, |s.period|) && k < |s.period|
  {
    ScheduledRow(s.beginningBalance[k], s.scheduledPayment[k], s.paymentFactor[k],
                 s.interestBilled[k], s.interestPaid[k], s.principalPaid[k], s.endingBalance[k],
                 s.poolFactor[k], s.amortizedBalanceFraction[k], s.survivalFactor[k])
  }

  /** The columns of a sequence of rows, periods numbered from 0. */
  function ScheduledColumns(rows: seq<ScheduledRow>): (s: ScheduledCashflow)
    ensures ScheduledShape(s, |rows|) && s.period == Range(|rows|)
    ensures forall k :: 0 <= k < |rows| ==> ScheduledRowAt(s, k) == rows[k]
  {
    var n := |rows|;
    ScheduledCashflow(
      Range(n),
      seq(n, k requires 0 <= k < n => rows[k].beginning),
      seq(n, k requires 0 <= k < n => rows[k].payment),
      seq(n, k requires 0 <= k < n => rows[k].paymentFactor),
      seq(n, k requires 0 <= k < n => rows[k].billed),
      seq(n, k requires 0 <= k < n => rows[k].interest),
      seq(n, k requires 0 <= k < n => rows[k].principal),
      seq(n, k requires 0 <= k < n => rows[k].ending),
      seq(n, k requires 0 <= k < n => rows[k].pool),
      seq(n, k requires 0 <= k < n => rows[k].fraction),
      seq(n, k requires 0 <= k < n => rows[k].survival))
  }

  /** `s` is the scheduled run of a loan with the given balances, decimal
      coupon and remaining term: remainingTerm+1 periods, period 0 holding
      the current balance, each later period rolled forward from the one
      before with remainingTerm-i+1 payments left. */
  predicate IsScheduledRun(originalBalance: real, currentBalance: real, coupon: real,
                           remainingTerm: int, s: ScheduledCashflow)
  {
    remainingTerm >= 0 && ScheduledShape(s, remainingTerm + 1) &&
    s.period == Range(remainingTerm + 1) &&
    ScheduledRowAt(s, 0) == ScheduledStart(originalBalance, currentBalance) &&
    forall i :: 1 <= i <= remainingTerm ==> RolledForward(s, originalBalance, coupon, remainingTerm, i)
  }

  /** Period i of `s` is the scheduled step from period i-1. */
  predicate RolledForward(s: ScheduledCashflow, originalBalance: real, coupon: real, remainingTerm: nat, i: nat)
    requires ScheduledShape(s, remainingTerm + 1) && 1 <= i <= remainingTerm
  {
    ScheduledRowAt(s, i) == ScheduledStep(ScheduledRowAt(s, i - 1), originalBalance, coupon, remainingTerm - i + 1)
  }

  /** run_bma_scheduled_cashflow.  The original term, accrued interest and
      servicing fee are accepted and do not affect the result.  A negative
      remaining term fails when the arrays are allocated (below -1) or when
      period 0 is written (exactly -1). */
  method RunScheduledCashflow(originalBalance: real, currentBalance: real, coupon: real,
                              originalTerm: int, remainingTerm: int,
                              accruedInterest: real, servicingFee: real)
    returns (res: Result<ScheduledCashflow>)
    ensures remainingTerm < -1 ==> res == Err(NegativeArrayLength)
    ensures remainingTerm == -1 ==> res == Err(IndexOutOfRange)
    ensures res.Ok? <==> remainingTerm >= 0
    ensures res.Ok? ==> IsScheduledRun(originalBalance, currentBalance, coupon, remainingTerm, res.value)
  {
    if remainingTerm < -1 {
      return Err(NegativeArrayLength);
    }
    if remainingTerm == -1 {
      return Err(IndexOutOfRange);
    }
    var periods := remainingTerm + 1;
    var rows := new ScheduledRow[periods](_ => ScheduledRow(0.0, 0.0, 0.0, 0.0, 0.0, 0.0, 0.0, 0.0, 0.0, 0.0));
    var f0 := Fraction(currentBalance, originalBalance);
    rows[0] := ScheduledRow(0.0, 0.0, 0.0, 0.0, 0.0, 0.0, currentBalance, f0, f0, 1.0);

    var i := 1;
    while i < periods
      invariant 1 <= i <= periods
      invariant rows[0] == ScheduledStart(originalBalance, currentBalance)
      invariant forall j, k {:trigger rows[j], rows[k]} :: 0 <= j && k == j + 1 && k < i ==>
                  rows[k] == ScheduledStep(rows[j], originalBalance, coupon, remainingTerm - k + 1)
    {
      rows[i] := ScheduledPeriod(rows[i - 1], originalBalance, coupon, remainingTerm - i + 1);
      i := i + 1;
    }
    return Ok(ScheduledColumns(rows[..]));
  }

  // ---------------------------------------------------------------------------
  // Properties of the scheduled run
  // ---------------------------------------------------------------------------

  /** A positive-rate period on a non-negative balance: the level payment
      b*af lies between the interest b*r and the cap b + b*r, and what is
      left is b * (1 - (af - r)), between 0 and b. */
  lemma PositiveRatePeriod(b: real, rate: real, af: real)
    requires b >= 0.0 && rate < af <= 1.0 + rate
    ensures b * rate <= b * af <= b + b * rate
    ensures b - (b * af - b * rate) == b * (1.0 - (af - rate))
    ensures 0.0 <= b * (1.0 - (af - rate)) <= b
  {
    ProductMonotone(rate, af, b);
    var top := 1.0 + rate;
    ProductMonotone(af, top, b);
    assert b * top == b + b * rate;
    var left := 1.0 - (af - rate);
    assert b * left == b - (b * af - b * rate);
    assert 0.0 <= b * left <= b;
  }

  /** One scheduled period from a non-negative balance.  The interest billed
      is paid in full and the balance neither increases nor goes negative;
      it is retired in the last period, and at once when the rate is not
      positive.  With a positive coupon the payment is the B.1 payment factor
      and the balance falls by the single-period amortization factor. */
  lemma ScheduledStepFromBalance(prev: ScheduledRow, originalBalance: real, coupon: real, m: int)
    requires prev.ending >= 0.0 && m >= 1
    ensures var r := ScheduledStep(prev, originalBalance, coupon, m);
            && r.interest == r.billed
            && 0.0 <= r.ending <= r.beginning
            && (m == 1 ==> r.ending == 0.0)
            && (coupon <= 0.0 ==> r.ending == 0.0 && r.principal == r.beginning)
            && (coupon > 0.0 ==> r.payment == SchPaymentFactor(coupon * 100.0, m, r.beginning).value.value)
            && (coupon > 0.0 ==> r.ending == r.beginning * (1.0 - AmFactor(1.0, coupon * 100.0, m).value.value))
  {
    var rate := coupon / 12.0;
    var b := prev.ending;
    if rate > 0.0 {
      RunAnnuityIsAnnuityFactor(rate, m);
      var af := AnnuityFactor(rate, m);
      assert MonthlyRate(coupon * 100.0) == rate;
      PositiveRatePeriod(b, rate, af);
    }
  }

  /** With a positive coupon a period leaves the single-period amortization
      factor's share of the balance unpaid. */
  lemma ScheduledStepAmortizes(prev: ScheduledRow, originalBalance: real, coupon: real, m: int)
    requires prev.ending >= 0.0 && m >= 1 && coupon > 0.0
    ensures ScheduledStep(prev, originalBalance, coupon, m).ending ==
            prev.ending * (1.0 - AmFactor(1.0, coupon * 100.0, m).value.value)
  {
    ScheduledStepFromBalance(prev, originalBalance, coupon, m);
  }

  /** From a non-negative current balance no ending balance is negative. */
  lemma {:induction false} ScheduledEndingNonNegative(originalBalance: real, currentBalance: real, coupon: real,
                                                      remainingTerm: int, s: ScheduledCashflow, i: nat)
    requires IsScheduledRun(originalBalance, currentBalance, coupon, remainingTerm, s)
    requires currentBalance >= 0.0 && i <= remainingTerm
    ensures s.endingBalance[i] >= 0.0
  {
    if i > 0 {
      ScheduledEndingNonNegative(originalBalance, currentBalance, coupon, remainingTerm, s, i - 1);
      assert RolledForward(s, originalBalance, coupon, remainingTerm, i);
      ScheduledStepFromBalance(ScheduledRowAt(s, i - 1), originalBalance, coupon, remainingTerm - i + 1);
    }
  }

  /** From a non-negative current balance every period pays the interest it
      bills, principal is never negative, and the ending balance stays
      non-negative and never increases. */
  lemma ScheduledRunBalances(originalBalance: real, currentBalance: real, coupon: real,
                             remainingTerm: int, s: ScheduledCashflow)
    requires IsScheduledRun(originalBalance, currentBalance, coupon, remainingTerm, s)
    requires currentBalance >= 0.0
    ensures forall i :: 0 <= i <= remainingTerm ==> s.endingBalance[i] >= 0.0
    ensures forall i :: 1 <= i <= remainingTerm ==>
              s.interestPaid[i] == s.interestBilled[i] == Share(s.endingBalance[i - 1], coupon / 12.0) &&
              s.principalPaid[i] == s.endingBalance[i - 1] - s.endingBalance[i] >= 0.0 &&
              s.endingBalance[i] <= s.beginningBalance[i] == s.endingBalance[i - 1]
  {
    forall i | 0 <= i <= remainingTerm
      ensures s.endingBalance[i] >= 0.0
    {
      ScheduledEndingNonNegative(originalBalance, currentBalance, coupon, remainingTerm, s, i);
    }
    forall i | 1 <= i <= remainingTerm
      ensures s.interestPaid[i] == s.interestBilled[i] == Share(s.endingBalance[i - 1], coupon / 12.0)
      ensures s.principalPaid[i] == s.endingBalance[i - 1] - s.endingBalance[i] >= 0.0
      ensures s.endingBalance[i] <= s.beginningBalance[i] == s.endingBalance[i - 1]
    {
      ScheduledEndingNonNegative(originalBalance, currentBalance, coupon, remainingTerm, s, i - 1);
      assert RolledForward(s, originalBalance, coupon, remainingTerm, i);
      ScheduledStepFromBalance(ScheduledRowAt(s, i - 1), originalBalance, coupon, remainingTerm - i + 1);
    }
  }

  /** The last period retires the balance: ending[remainingTerm] = 0. */
  lemma ScheduledRunPaysOff(originalBalance: real, currentBalance: real, coupon: real,
                            remainingTerm: int, s: ScheduledCashflow)
    requires IsScheduledRun(originalBalance, currentBalance, coupon, remainingTerm, s)
    requires currentBalance >= 0.0 && remainingTerm >= 1
    ensures s.endingBalance[remainingTerm] == 0.0
  {
    ScheduledEndingNonNegative(originalBalance, currentBalance, coupon, remainingTerm, s, remainingTerm - 1);
    assert RolledForward(s, originalBalance, coupon, remainingTerm, remainingTerm);
    ScheduledStepFromBalance(ScheduledRowAt(s, remainingTerm - 1), originalBalance, coupon, 1);
  }

  /** The principal paid over periods 1 .. k. */
  function PrincipalThrough(principal: seq<real>, k: nat): real
    requires k < |principal|
  {
    if k == 0 then 0.0 else PrincipalThrough(principal, k - 1) + principal[k]
  }

  /** When each period's principal is the drop in the balance, the principal
      paid through period k is the drop from period 0 to period k. */
  lemma {:induction false} PrincipalTelescopes(principal: seq<real>, ending: seq<real>, k: nat)
    requires |principal| == |ending| && k < |ending|
    requires forall i :: 1 <= i <= k ==> principal[i] == ending[i - 1] - ending[i]
    ensures PrincipalThrough(principal, k) == ending[0] - ending[k]
  {
    if k > 0 {
      PrincipalTelescopes(principal, ending, k - 1);
    }
  }

  /** From a non-negative current balance the principal paid through period
      k is the balance retired by then, and over a remaining term of at least
      one period it is the whole current balance. */
  lemma ScheduledPrincipalSums(originalBalance: real, currentBalance: real, coupon: real,
                               remainingTerm: int, s: ScheduledCashflow)
    requires IsScheduledRun(originalBalance, currentBalance, coupon, remainingTerm, s)
    requires currentBalance >= 0.0
    ensures forall k :: 0 <= k <= remainingTerm ==>
              PrincipalThrough(s.principalPaid, k) == currentBalance - s.endingBalance[k]
    ensures remainingTerm >= 1 ==> PrincipalThrough(s.principalPaid, remainingTerm) == currentBalance
  {
    ScheduledRunBalances(originalBalance, currentBalance, coupon, remainingTerm, s);
    assert s.endingBalance[0] == ScheduledRowAt(s, 0).ending == currentBalance;
    forall k | 0 <= k <= remainingTerm
      ensures PrincipalThrough(s.principalPaid, k) == currentBalance - s.endingBalance[k]
    {
      PrincipalTelescopes(s.principalPaid, s.endingBalance, k);
    }
    if remainingTerm >= 1 {
      ScheduledRunPaysOff(originalBalance, currentBalance, coupon, remainingTerm, s);
    }
  }

  /** At a zero (or negative) coupon the whole balance is repaid in period 1. */
  lemma ScheduledRunZeroRate(originalBalance: real, currentBalance: real, coupon: real,
                             remainingTerm: int, s: ScheduledCashflow)
    requires IsScheduledRun(originalBalance, currentBalance, coupon, remainingTerm, s)
    requires currentBalance >= 0.0 && coupon <= 0.0
    ensures remainingTerm >= 1 ==> s.principalPaid[1] == currentBalance
    ensures forall i :: 1 <= i <= remainingTerm ==> s.endingBalance[i] == 0.0
  {
    forall i | 1 <= i <= remainingTerm
      ensures s.endingBalance[i] == 0.0 && s.principalPaid[i] == s.beginningBalance[i]
    {
      ScheduledEndingNonNegative(originalBalance, currentBalance, coupon, remainingTerm, s, i - 1);
      assert RolledForward(s, originalBalance, coupon, remainingTerm, i);
      ScheduledStepFromBalance(ScheduledRowAt(s, i - 1), originalBalance, coupon, remainingTerm - i + 1);
    }
    if remainingTerm >= 1 {
      assert RolledForward(s, originalBalance, coupon, remainingTerm, 1);
      assert s.beginningBalance[1] == s.endingBalance[0] == currentBalance;
    }
  }

  /** With a positive coupon the run is the closed form of section B.1
      re-amortized over the remaining term: after i periods the balance is
      currentBalance * BAL(C, remainingTerm, remainingTerm - i), C the
      coupon in percent. */
  lemma ScheduledRunClosedForm(originalBalance: real, currentBalance: real, coupon: real,
                               remainingTerm: int, s: ScheduledCashflow)
    requires IsScheduledRun(originalBalance, currentBalance, coupon, remainingTerm, s)
    requires currentBalance >= 0.0 && coupon > 0.0 && remainingTerm >= 1
    ensures forall i :: 0 <= i <= remainingTerm ==>
              s.endingBalance[i] ==
              currentBalance * SchBalanceFactorFixedRate(coupon * 100.0, remainingTerm, remainingTerm - i).value.value
  {
    forall i | 0 <= i <= remainingTerm
      ensures s.endingBalance[i] ==
              currentBalance * SchBalanceFactorFixedRate(coupon * 100.0, remainingTerm, remainingTerm - i).value.value
    {
      ScheduledClosedFormAt(originalBalance, currentBalance, coupon, remainingTerm, s, i);
    }
  }

  lemma {:induction false} ScheduledClosedFormAt(originalBalance: real, currentBalance: real, coupon: real,
                                                 remainingTerm: int, s: ScheduledCashflow, i: nat)
    requires IsScheduledRun(originalBalance, currentBalance, coupon, remainingTerm, s)
    requires currentBalance >= 0.0 && coupon > 0.0 && 1 <= remainingTerm && i <= remainingTerm
    ensures s.endingBalance[i] ==
            currentBalance * SchBalanceFactorFixedRate(coupon * 100.0, remainingTerm, remainingTerm - i).value.value
  {
    if i > 0 {
      ScheduledClosedFormAt(originalBalance, currentBalance, coupon, remainingTerm, s, i - 1);
      var m := remainingTerm - i + 1;
      ScheduledEndingAmortizes(originalBalance, currentBalance, coupon, remainingTerm, s, i);
      ClosedFormPeriod(currentBalance, coupon * 100.0, remainingTerm, m, s.endingBalance[i - 1],
                       AmFactor(1.0, coupon * 100.0, m).value.value, s.endingBalance[i]);
    }
  }

  lemma ScheduledEndingAmortizes(originalBalance: real, currentBalance: real, coupon: real,
                                 remainingTerm: int, s: ScheduledCashflow, i: nat)
    requires IsScheduledRun(originalBalance, currentBalance, coupon, remainingTerm, s)
    requires currentBalance >= 0.0 && coupon > 0.0 && 1 <= i <= remainingTerm
    ensures s.endingBalance[i] ==
            s.endingBalance[i - 1] * (1.0 - AmFactor(1.0, coupon * 100.0, remainingTerm - i + 1).value.value)
  {
    ScheduledEndingNonNegative(originalBalance, currentBalance, coupon, remainingTerm, s, i - 1);
    assert RolledForward(s, originalBalance, coupon, remainingTerm, i);
    ScheduledStepAmortizes(ScheduledRowAt(s, i - 1), originalBalance, coupon, remainingTerm - i + 1);
  }

  lemma ClosedFormPeriod(b0: real, c: real, t: int, m: int, before: real, am: real, after: real)
    requires c >= 0.0 && 1 <= m <= t
    requires before == b0 * SchBalanceFactorFixedRate(c, t, m).value.value
    requires am == AmFactor(1.0, c, m).value.value
    requires after == before * (1.0 - am)
    ensures after == b0 * SchBalanceFactorFixedRate(c, t, m - 1).value.value
  {
    FixedRateStep(c, t, m);
    var x := SchBalanceFactorFixedRate(c, t, m).value.value;
    assert after == (b0 * x) * (1.0 - am) == b0 * (x * (1.0 - am));
  }

  // ---------------------------------------------------------------------------
  // Actual cash flow
  // ---------------------------------------------------------------------------

  /** Outputs of the actual run, one sequence per column.  schAm is the
      scheduled ending balance the run was given. */
  datatype ActualCashflow = ActualCashflow(
    period: seq<int>,
    perfBal: seq<real>,
    newDef: seq<real>,
    fcl: seq<real>,
    schAm: seq<real>,
    expAm: seq<real>,
    amDef: seq<real>,
    actAm: seq<real>,
    volPrepay: seq<real>,
    expInt: seq<real>,
    lostInt: seq<real>,
    actInt: seq<real>,
    adb: seq<real>,
    prinRecov: seq<real>,
    prinLoss: seq<real>,
    smm: seq<real>,
    mdr: seq<real>)

  /** A curve fitted to n periods: truncated when longer, and extended by
      repeating its last value when shorter. */
  function EdgePad(curve: seq<real>, n: nat): (p: seq<real>)
    requires |curve| > 0
    ensures |p| == n
    ensures forall k :: 0 <= k < n ==> p[k] == (if k < |curve| then curve[k] else curve[|curve| - 1])
  {
    if n <= |curve| then curve[..n] else curve + Fill(n - |curve|, curve[|curve| - 1])
  }

  /** Everything a period of the actual run reads: the period count n, the
      scheduled balances sch, the fitted curves, the severity lag, the
      monthly rate, the P&I-advancing flag and the liquidation horizon. */
  datatype ActualTerms = ActualTerms(
    n: nat,
    sch: seq<real>,
    smm: seq<real>,
    mdr: seq<real>,
    severity: seq<real>,
    lag: int,
    monthlyRate: real,
    piAdvanced: bool,
    monthsToLiquidation: int)

  /** The curves cover every period, the schedule at least as many, and the
      lag is non-negative whenever a period after the first is computed. */
  predicate TermsShape(t: ActualTerms)
  {
    |t.sch| >= t.n && |t.smm| == t.n && |t.mdr| == t.n && |t.severity| == t.n &&
    (t.lag >= 0 || t.n <= 1)
  }

  /** The ending balances the run reads exist: each period i reads entry
      i - 1, and entry i only while entry i - 1 is positive, so the column
      may stop one entry short when its last but one entry is not positive. */
  predicate ScheduleReadable(eb: seq<real>, n: int)
  {
    |eb| >= n || (n >= 2 && |eb| == n - 1 && eb[n - 2] <= 0.0)
  }

  /** The run's reads of the ending-balance column, entry by entry: entry 0
      for the first row, then in each period j + 1 entry j and, when that is
      positive, entry j + 1. */
  predicate ReadsInRange(eb: seq<real>, n: int)
  {
    0 < |eb| && forall j :: 0 <= j < n - 1 ==> j < |eb| && (eb[j] > 0.0 ==> j + 1 < |eb|)
  }

  /** The column is readable exactly when every read the run makes is in
      range. */
  lemma ReadableIffInRange(eb: seq<real>, n: int)
    requires n >= 1
    ensures ScheduleReadable(eb, n) <==> ReadsInRange(eb, n)
  {
    if ReadsInRange(eb, n) && |eb| < n {
      var j := |eb|;
      if j < n - 1 {
        assert false;
      }
      assert n - 2 < |eb| && (eb[n - 2] > 0.0 ==> n - 1 < |eb|);
    }
  }

  /** The column as the run reads it, its missing last entry (never read)
      taken as 0. */
  function ScheduleRead(eb: seq<real>, n: int): (s: seq<real>)
    requires ScheduleReadable(eb, n)
    ensures |s| >= n && |s| >= |eb|
    ensures forall k :: 0 <= k < |eb| ==> s[k] == eb[k]
    ensures |eb| >= n ==> s == eb
  {
    if |eb| >= n then eb else eb + [0.0]
  }

  /** The filled-in entry never reaches a survival ratio: the ratio of each
      period is the one the column itself gives. */
  lemma ScheduleReadSurvival(eb: seq<real>, n: int, i: int)
    requires ScheduleReadable(eb, n) && 1 <= i < n
    ensures var s := ScheduleRead(eb, n);
            && i - 1 < |eb|
            && SurvivalRatio(s[i - 1], s[i]) == (if eb[i - 1] > 0.0 then eb[i] / eb[i - 1] else 0.0)
  {
  }

  function ActualTermsOf(sched: ScheduledCashflow, smmCurve: seq<real>, mdrCurve: seq<real>,
                         severityCurve: seq<real>, severityLag: int, coupon: real,
                         piAdvanced: bool, monthsToLiquidation: int): (t: ActualTerms)
    requires |smmCurve| > 0 && |mdrCurve| > 0 && |severityCurve| > 0
    requires ScheduleReadable(sched.endingBalance, |sched.period|)
    requires severityLag >= 0 || |sched.period| <= 1
    ensures TermsShape(t) && t.n == |sched.period|
    ensures t.sch == ScheduleRead(sched.endingBalance, |sched.period|)
    ensures t.monthlyRate == coupon / 12.0
  {
    var n := |sched.period|;
    ActualTerms(n, ScheduleRead(sched.endingBalance, n), EdgePad(smmCurve, n), EdgePad(mdrCurve, n),
                EdgePad(severityCurve, n), severityLag, coupon / 12.0, piAdvanced, monthsToLiquidation)
  }

  /** Scheduled survival over one period, sch[i] / sch[i-1], or 0 once the
      schedule has paid off. */
  function SurvivalRatio(schPrev: real, schCur: real): real
  {
    if schPrev > 0.0 then schCur / schPrev else 0.0
  }

  /** The last monthsToLiquidation periods take no new defaults. */
  predicate InLiquidationWindow(i: int, n: int, monthsToLiquidation: int)
  {
    monthsToLiquidation > 0 && i >= MaxInt(0, n - monthsToLiquidation)
  }

  /** The cap on unscheduled reductions.  When new defaults, voluntary
      prepayments and amortization together exceed a positive performing
      balance, prepayments are cut first, by at most their own value, and
      amortization then absorbs what is left, floored at zero; new defaults
      are never cut.  Returns the cut prepayment and amortization. */
  function CapUnscheduled(newDef: real, volPrepay: real, actAm: real, perfPrev: real): (cut: (real, real))
    ensures !(newDef + volPrepay + actAm > perfPrev && perfPrev > 0.0) ==> cut == (volPrepay, actAm)
    ensures volPrepay >= 0.0 ==> 0.0 <= cut.0 <= volPrepay
    ensures cut.1 != actAm ==> cut.0 == 0.0 && 0.0 <= cut.1 <= MaxReal(actAm, 0.0)
    ensures newDef + volPrepay + actAm > perfPrev && perfPrev > 0.0 ==>
              newDef + cut.0 + cut.1 == perfPrev || (cut == (0.0, 0.0) && newDef > perfPrev)
  {
    if newDef + volPrepay + actAm > perfPrev && perfPrev > 0.0 then
      var excess := newDef + volPrepay + actAm - perfPrev;
      var reduction := MinReal(volPrepay, excess);
      var rest := excess - reduction;
      (volPrepay - reduction, if rest > 0.0 then MaxReal(actAm - rest, 0.0) else actAm)
    else
      (volPrepay, actAm)
  }

  /** The amortized default balance entering recovery in period i, from the
      amount that defaulted `lag` periods earlier: scaled by the scheduled
      amortization since the default when P&I is advanced, raw otherwise. */
  function DefaultedBalance(t: ActualTerms, i: int, defaulted: real): (adb: real)
    requires TermsShape(t) && 0 <= t.lag <= i < t.n && i >= 1
    ensures !t.piAdvanced || t.lag == 0 ==> adb == defaulted
    ensures defaulted == 0.0 ==> adb == 0.0
    ensures t.piAdvanced && i > t.lag && t.sch[i - t.lag - 1] > 0.0 ==>
              adb * t.sch[i - t.lag - 1] == defaulted * t.sch[i - 1]
  {
    var d := i - t.lag;
    if !t.piAdvanced then defaulted
    else if d > 0 && t.sch[d - 1] > 0.0 then Share(defaulted, t.sch[i - 1] / t.sch[d - 1])
    else if d == 0 then (if t.sch[0] > 0.0 then Share(defaulted, t.sch[i - 1] / t.sch[0]) else defaulted)
    else defaulted
  }

  /** One period of the actual run. */
  datatype ActualRow = ActualRow(
    perf: real, newDef: real, fcl: real, expAm: real, amDef: real, actAm: real,
    volPrepay: real, expInt: real, lostInt: real, actInt: real, adb: real,
    prinRecov: real, prinLoss: real, mdr: real)

  /** Period 0: the performing balance is the scheduled balance, the MDR is
      the curve's first value and every flow is zero. */
  function ActualStart(t: ActualTerms): ActualRow
    requires TermsShape(t) && t.n > 0
  {
    ActualRow(t.sch[0], 0.0, 0.0, 0.0, 0.0, 0.0, 0.0, 0.0, 0.0, 0.0, 0.0, 0.0, 0.0, t.mdr[0])
  }

  /** The performing side of a period: the MDR applied, new defaults,
      capped prepayments and amortization, the new performing balance, and
      the scheduled survival ratio the period used. */
  datatype Performing = Performing(mdr: real, newDef: real, volPrepay: real, actAm: real,
                                   perf: real, survival: real)

  function PerformingStep(t: ActualTerms, i: int, perfPrev: real): (p: Performing)
    requires TermsShape(t) && 1 <= i < t.n
    ensures p.perf >= 0.0
    ensures p.mdr == (if InLiquidationWindow(i, t.n, t.monthsToLiquidation) then 0.0 else t.mdr[i])
    ensures p.newDef == Share(perfPrev, p.mdr)
  {
    var surv := SurvivalRatio(t.sch[i - 1], t.sch[i]);
    var mdr := if InLiquidationWindow(i, t.n, t.monthsToLiquidation) then 0.0 else t.mdr[i];
    var newDef := Share(perfPrev, mdr);
    var cut := CapUnscheduled(newDef, Share(Share(perfPrev, surv), t.smm[i]),
                              Share(perfPrev - newDef, 1.0 - surv), perfPrev);
    Performing(mdr, newDef, cut.0, cut.1, MaxReal(perfPrev - newDef - cut.0 - cut.1, 0.0), surv)
  }

  /** The recovery side of a period: the amortized default balance, its
      loss and recovery, the foreclosure pipeline, expected amortization and
      interest. */
  datatype Recovery = Recovery(adb: real, amDef: real, fcl: real, expAm: real,
                               prinLoss: real, prinRecov: real, expInt: real, lostInt: real)

  function RecoveryStep(t: ActualTerms, i: int, prev: ActualRow, newDef: real, oneMinus: real,
                        defaulted: real): (q: Recovery)
    requires TermsShape(t) && 1 <= i < t.n
    ensures q.fcl >= 0.0
    ensures !t.piAdvanced ==> q.amDef == 0.0
    ensures i < t.lag ==> q.adb == 0.0 && q.prinLoss == 0.0 && q.prinRecov == 0.0
    ensures i >= t.lag ==> q.prinLoss <= q.adb && q.prinLoss + q.prinRecov == q.adb
  {
    var adb := if i >= t.lag then DefaultedBalance(t, i, defaulted) else 0.0;
    var amDef := if t.piAdvanced then Share(newDef + prev.fcl - adb, oneMinus) else 0.0;
    var loss := if i >= t.lag then MinReal(Share(defaulted, t.severity[i - t.lag]), adb) else 0.0;
    Recovery(adb, amDef, MaxReal(newDef + prev.fcl - adb - amDef, 0.0),
             Share(prev.perf + prev.fcl - adb, oneMinus),
             loss, if i >= t.lag then MaxReal(adb - loss, 0.0) else 0.0,
             Share(prev.perf + prev.fcl, t.monthlyRate), Share(newDef + prev.fcl, t.monthlyRate))
  }

  /** Period i of the actual run, from period i-1 and the new defaults of
      period i - lag (earlierDefault, read only when lag > 0). */
  function ActualStep(t: ActualTerms, i: int, prev: ActualRow, earlierDefault: real): (r: ActualRow)
    requires TermsShape(t) && 1 <= i < t.n
    ensures r.perf >= 0.0 && r.fcl >= 0.0
    ensures r.mdr == (if InLiquidationWindow(i, t.n, t.monthsToLiquidation) then 0.0 else t.mdr[i])
    ensures r.newDef == Share(prev.perf, r.mdr)
    ensures !t.piAdvanced ==> r.amDef == 0.0
    ensures i < t.lag ==> r.adb == 0.0 && r.prinLoss == 0.0 && r.prinRecov == 0.0
    ensures i >= t.lag ==> r.prinLoss <= r.adb && r.prinLoss + r.prinRecov == r.adb
    ensures r.actInt == r.expInt - r.lostInt
    ensures r.expInt == Share(prev.perf + prev.fcl, t.monthlyRate)
    ensures r.lostInt == Share(r.newDef + prev.fcl, t.monthlyRate)
    ensures r.fcl == MaxReal(r.newDef + prev.fcl - r.adb - r.amDef, 0.0)
  {
    var p := PerformingStep(t, i, prev.perf);
    var q := RecoveryStep(t, i, prev, p.newDef, 1.0 - p.survival,
                          if t.lag == 0 then p.newDef else earlierDefault);
    ActualRow(p.perf, p.newDef, q.fcl, q.expAm, q.amDef, p.actAm, p.volPrepay, q.expInt, q.lostInt,
              q.expInt - q.lostInt, q.adb, q.prinRecov, q.prinLoss, p.mdr)
  }

  /** The first half of the actual run's loop body for period i, in the
      library's order, with the cap applied to the period's prepayment and
      amortization in place. */
  method PerformingPeriod(t: ActualTerms, i: int, perfPrev: real) returns (p: Performing)
    requires TermsShape(t) && 1 <= i < t.n
    ensures p == PerformingStep(t, i, perfPrev)
  {
    var surv := 0.0;
    if t.sch[i - 1] > 0.0 {
      surv := t.sch[i] / t.sch[i - 1];
    }
    var oneMinus := 1.0 - surv;
    var mdr := t.mdr[i];
    if t.monthsToLiquidation > 0 && i >= MaxInt(0, t.n - t.monthsToLiquidation) {
      mdr := 0.0;
    }
    var newDef := Share(perfPrev, mdr);
    var volPrepay := Share(Share(perfPrev, surv), t.smm[i]);
    var actAm := Share(perfPrev - newDef, oneMinus);
    ghost var uncut := (volPrepay, actAm);
    var total := newDef + volPrepay + actAm;
    if total > perfPrev && perfPrev > 0.0 {
      var excess := total - perfPrev;
      var reduction := MinReal(volPrepay, excess);
      volPrepay := volPrepay - reduction;
      excess := excess - reduction;
      if excess > 0.0 {
        actAm := MaxReal(actAm - excess, 0.0);
      }
    }
    assert (volPrepay, actAm) == CapUnscheduled(newDef, uncut.0, uncut.1, perfPrev);
    var perf := perfPrev - newDef - volPrepay - actAm;
    perf := MaxReal(perf, 0.0);
    p := Performing(mdr, newDef, volPrepay, actAm, perf, surv);
  }

  /** The second half of the loop body: recovery of the defaults of period
      i - lag, foreclosure, expected amortization and interest. */
  method RecoveryPeriod(t: ActualTerms, i: int, prev: ActualRow, newDef: real, oneMinus: real,
                        defaulted: real) returns (q: Recovery)
    requires TermsShape(t) && 1 <= i < t.n
    ensures q == RecoveryStep(t, i, prev, newDef, oneMinus, defaulted)
  {
    var adb := 0.0;
    if i >= t.lag {
      var d := i - t.lag;
      if t.piAdvanced {
        if d > 0 && t.sch[d - 1] > 0.0 {
          adb := Share(defaulted, t.sch[i - 1] / t.sch[d - 1]);
        } else if d == 0 {
          adb := if t.sch[0] > 0.0 then Share(defaulted, t.sch[i - 1] / t.sch[0]) else defaulted;
        } else {
          adb := defaulted;
        }
      } else {
        adb := defaulted;
      }
    }
    var amDef := 0.0;
    if t.piAdvanced {
      amDef := Share(newDef + prev.fcl - adb, oneMinus);
    }
    var fcl := newDef + prev.fcl - adb - amDef;
    fcl := MaxReal(fcl, 0.0);
    var expAm := Share(prev.perf + prev.fcl - adb, oneMinus);
    var loss, recov := 0.0, 0.0;
    if i >= t.lag {
      loss := MinReal(Share(defaulted, t.severity[i - t.lag]), adb);
      recov := MaxReal(adb - loss, 0.0);
    }
    var expInt := Share(prev.perf + prev.fcl, t.monthlyRate);
    var lostInt := Share(newDef + prev.fcl, t.monthlyRate);
    q := Recovery(adb, amDef, fcl, expAm, loss, recov, expInt, lostInt);
  }

  /** The actual run's loop body for period i. */
  method ActualPeriod(t: ActualTerms, i: int, prev: ActualRow, earlierDefault: real) returns (r: ActualRow)
    requires TermsShape(t) && 1 <= i < t.n
    ensures r == ActualStep(t, i, prev, earlierDefault)
  {
    var p := PerformingPeriod(t, i, prev.perf);
    var defaulted := if t.lag == 0 then p.newDef else earlierDefault;
    var q := RecoveryPeriod(t, i, prev, p.newDef, 1.0 - p.survival, defaulted);
    r := ActualRow(p.perf, p.newDef, q.fcl, q.expAm, q.amDef, p.actAm, p.volPrepay, q.expInt, q.lostInt,
                   q.expInt - q.lostInt, q.adb, q.prinRecov, q.prinLoss, p.mdr);
  }

  /** The new defaults of period i - lag, which period i sends to recovery. */
  function EarlierDefault(t: ActualTerms, rows: seq<ActualRow>, i: int): real
    requires 0 <= i < |rows|
  {
    if t.lag > 0 && i >= t.lag then rows[i - t.lag].newDef else 0.0
  }

  /** Row i follows from row i-1 and the row the lag points at. */
  predicate ActualRolled(t: ActualTerms, rows: seq<ActualRow>, i: int)
    requires TermsShape(t) && |rows| == t.n && 1 <= i < t.n
  {
    rows[i] == ActualStep(t, i, rows[i - 1], EarlierDefault(t, rows, i))
  }

  /** The rows of an actual run: period 0 from the schedule, every later
      period rolled forward by ActualStep. */
  predicate IsActualRows(t: ActualTerms, rows: seq<ActualRow>)
  {
    TermsShape(t) && t.n > 0 && |rows| == t.n && rows[0] == ActualStart(t) &&
    forall i :: 1 <= i < t.n ==> ActualRolled(t, rows, i)
  }

  predicate ActualShape(a: ActualCashflow, n: nat)
  {
    |a.period| == n && |a.perfBal| == n && |a.newDef| == n && |a.fcl| == n &&
    |a.expAm| == n && |a.amDef| == n && |a.actAm| == n && |a.volPrepay| == n &&
    |a.expInt| == n && |a.lostInt| == n && |a.actInt| == n && |a.adb| == n &&
    |a.prinRecov| == n && |a.prinLoss| == n && |a.smm| == n && |a.mdr| == n
  }

  function ActualRowAt(a: ActualCashflow, k: nat): ActualRow
    requires ActualShape(a, |a.period|) && k < |a.period|
  {
    ActualRow(a.perfBal[k], a.newDef[k], a.fcl[k], a.expAm[k], a.amDef[k], a.actAm[k],
              a.volPrepay[k], a.expInt[k], a.lostInt[k], a.actInt[k], a.adb[k],
              a.prinRecov[k], a.prinLoss[k], a.mdr[k])
  }

  function ActualRowsOf(a: ActualCashflow): (rows: seq<ActualRow>)
    requires ActualShape(a, |a.period|)
    ensures |rows| == |a.period|
    ensures forall k :: 0 <= k < |rows| ==> rows[k] == ActualRowAt(a, k)
  {
    seq(|a.period|, k requires 0 <= k < |a.period| => ActualRowAt(a, k))
  }

  /** The columns of an actual run from its rows. */
  function ActualColumns(period: seq<int>, schAm: seq<real>, smm: seq<real>,
                         rows: seq<ActualRow>): (a: ActualCashflow)
    requires |period| == |rows| == |smm|
    ensures ActualShape(a, |rows|) && a.period == period && a.schAm == schAm && a.smm == smm
    ensures ActualRowsOf(a) == rows
  {
    var n := |rows|;
    var a := ActualCashflow(
      period,
      seq(n, k requires 0 <= k < n => rows[k].perf),
      seq(n, k requires 0 <= k < n => rows[k].newDef),
      seq(n, k requires 0 <= k < n => rows[k].fcl),
      schAm,
      seq(n, k requires 0 <= k < n => rows[k].expAm),
      seq(n, k requires 0 <= k < n => rows[k].amDef),
      seq(n, k requires 0 <= k < n => rows[k].actAm),
      seq(n, k requires 0 <= k < n => rows[k].volPrepay),
      seq(n, k requires 0 <= k < n => rows[k].expInt),
      seq(n, k requires 0 <= k < n => rows[k].lostInt),
      seq(n, k requires 0 <= k < n => rows[k].actInt),
      seq(n, k requires 0 <= k < n => rows[k].adb),
      seq(n, k requires 0 <= k < n => rows[k].prinRecov),
      seq(n, k requires 0 <= k < n => rows[k].prinLoss),
      smm,
      seq(n, k requires 0 <= k < n => rows[k].mdr));
    assert forall k :: 0 <= k < n ==> ActualRowAt(a, k) == rows[k];
    a
  }

  /** An actual run over the scheduled cash flow sched with terms t. */
  predicate IsActualRun(t: ActualTerms, sched: ScheduledCashflow, a: ActualCashflow)
  {
    TermsShape(t) && t.n == |sched.period| && ScheduleReadable(sched.endingBalance, t.n) &&
    t.sch == ScheduleRead(sched.endingBalance, t.n) &&
    ActualShape(a, t.n) && a.period == sched.period && a.schAm == sched.endingBalance &&
    a.smm == t.smm && IsActualRows(t, ActualRowsOf(a))
  }

  /** Writing row i leaves the relation of every earlier row in place. */
  lemma RolledKept(t: ActualTerms, rows: seq<ActualRow>, i: int, r: ActualRow)
    requires TermsShape(t) && |rows| == t.n && 1 <= i < t.n
    requires forall k :: 1 <= k < i ==> ActualRolled(t, rows, k)
    requires r == ActualStep(t, i, rows[i - 1], EarlierDefault(t, rows, i))
    ensures forall k {:trigger ActualRolled(t, rows[i := r], k)} :: 1 <= k <= i ==> ActualRolled(t, rows[i := r], k)
  {
    var next := rows[i := r];
    forall k | 1 <= k <= i
      ensures ActualRolled(t, next, k)
    {
      assert next[k - 1] == rows[k - 1];
      assert EarlierDefault(t, next, k) == EarlierDefault(t, rows, k);
      if k < i {
        assert ActualRolled(t, rows, k);
      }
    }
  }

  /** The actual run.  A curve that is empty when there are periods to fill
      cannot be padded; no periods, an ending-balance column the run cannot
      read to the end (ScheduleReadable), or a negative lag with a period to
      compute make an index fall outside an array. */
  method RunActualCashflow(sched: ScheduledCashflow, smmCurve: seq<real>, mdrCurve: seq<real>,
                           severityCurve: seq<real>, severityLag: int, coupon: real,
                           piAdvanced: bool, monthsToLiquidation: int)
    returns (res: Result<ActualCashflow>)
    ensures |sched.period| > 0 && (|smmCurve| == 0 || |mdrCurve| == 0 || |severityCurve| == 0) ==>
              res == Err(EmptyCurve)
    ensures |sched.period| == 0 ==> res == Err(IndexOutOfRange)
    ensures res.Ok? <==>
              |sched.period| > 0 && |smmCurve| > 0 && |mdrCurve| > 0 && |severityCurve| > 0 &&
              ScheduleReadable(sched.endingBalance, |sched.period|) && (severityLag >= 0 || |sched.period| == 1)
    ensures res.Err? ==> res.error == EmptyCurve || res.error == IndexOutOfRange
    ensures |smmCurve| > 0 && |mdrCurve| > 0 && |severityCurve| > 0 && res.Err? ==>
              res.error == IndexOutOfRange
    ensures res.Ok? ==>
              IsActualRun(ActualTermsOf(sched, smmCurve, mdrCurve, severityCurve, severityLag, coupon,
                                        piAdvanced, monthsToLiquidation), sched, res.value)
  {
    var periods := |sched.period|;
    if periods > 0 && (|smmCurve| == 0 || |mdrCurve| == 0 || |severityCurve| == 0) {
      return Err(EmptyCurve);
    }
    if periods == 0 || !ScheduleReadable(sched.endingBalance, periods) || (severityLag < 0 && periods > 1) {
      return Err(IndexOutOfRange);
    }
    var t := ActualTermsOf(sched, smmCurve, mdrCurve, severityCurve, severityLag, coupon,
                           piAdvanced, monthsToLiquidation);
    var rows := ActualRows(t);
    return Ok(ActualColumns(sched.period, sched.endingBalance, t.smm, rows));
  }

  /** The rows of the run: period 0 from the schedule, then each period in
      turn from the one before it and the row the lag points at. */
  method ActualRows(t: ActualTerms) returns (res: seq<ActualRow>)
    requires TermsShape(t) && t.n > 0
    ensures IsActualRows(t, res)
  {
    var rows := new ActualRow[t.n](_ => ActualRow(0.0, 0.0, 0.0, 0.0, 0.0, 0.0, 0.0, 0.0, 0.0, 0.0, 0.0,
                                                  0.0, 0.0, 0.0));
    rows[0] := ActualStart(t);

    var i := 1;
    while i < t.n
      invariant 1 <= i <= t.n
      invariant rows[0] == ActualStart(t)
      invariant forall k :: 1 <= k < i ==> ActualRolled(t, rows[..], k)
    {
      var earlier := if t.lag > 0 && i >= t.lag then rows[i - t.lag].newDef else 0.0;
      var r := ActualPeriod(t, i, rows[i - 1], earlier);
      ghost var before := rows[..];
      assert earlier == EarlierDefault(t, before, i);
      rows[i] := r;
      assert rows[..] == before[i := r];
      RolledKept(t, before, i, r);
      i := i + 1;
    }
    return rows[..];
  }

  // ---------------------------------------------------------------------------
  // Properties of the actual run
  // ---------------------------------------------------------------------------

  lemma UnitShare(x: real, f: real)
    requires x >= 0.0 && 0.0 <= f <= 1.0
    ensures 0.0 <= Share(x, f) <= x
  {
    ProductMonotone(0.0, f, x);
    ProductMonotone(f, 1.0, x);
  }

  lemma NonNegativeShare(x: real, f: real)
    requires x >= 0.0 && f >= 0.0
    ensures Share(x, f) >= 0.0
  {
    ProductMonotone(0.0, f, x);
  }

  /** An amortizing schedule survives each period by a ratio in [0, 1]. */
  lemma SurvivalRatioUnit(schPrev: real, schCur: real)
    requires 0.0 <= schCur <= schPrev
    ensures 0.0 <= SurvivalRatio(schPrev, schCur) <= 1.0
  {
    if schPrev > 0.0 {
      QuotientAtMostOne(schCur, schPrev);
    }
  }

  lemma QuotientAtMostOne(x: real, y: real)
    requires 0.0 <= x <= y && y > 0.0
    ensures 0.0 <= x / y <= 1.0
  {
    var q := x / y;
    assert q * y == x;
    if q > 1.0 {
      ProductMonotone(1.0, q, y);
    }
  }

  /** What survives of b over a period ending at c, taken off b, is b - c. */
  lemma AmortizedPart(b: real, c: real)
    requires b > 0.0
    ensures Share(b, 1.0 - SurvivalRatio(b, c)) == b - c
  {
    var q := c / b;
    assert q * b == c;
    assert b * (1.0 - q) == b - b * q;
  }

  /** The performing side conserves balance when the rates are rates and
      the schedule amortizes: the performing balance at the start of the
      period is what still performs plus new defaults, voluntary
      prepayments and amortization, none of them negative. */
  lemma PerformingConserves(t: ActualTerms, i: int, perfPrev: real)
    requires TermsShape(t) && 1 <= i < t.n
    requires perfPrev >= 0.0 && 0.0 <= t.mdr[i] <= 1.0 && t.smm[i] >= 0.0
    requires 0.0 <= t.sch[i] <= t.sch[i - 1]
    ensures var p := PerformingStep(t, i, perfPrev);
            p.newDef >= 0.0 && p.volPrepay >= 0.0 && p.actAm >= 0.0 &&
            p.newDef + p.volPrepay + p.actAm + p.perf == perfPrev
  {
    var surv := SurvivalRatio(t.sch[i - 1], t.sch[i]);
    SurvivalRatioUnit(t.sch[i - 1], t.sch[i]);
    var p := PerformingStep(t, i, perfPrev);
    UnitShare(perfPrev, p.mdr);
    UnitShare(perfPrev, surv);
    NonNegativeShare(Share(perfPrev, surv), t.smm[i]);
    UnitShare(perfPrev - p.newDef, 1.0 - surv);
  }

  /** Over a run whose curves are rates and whose schedule amortizes, every
      period conserves the performing balance and no outflow is negative. */
  lemma ActualRunConserves(t: ActualTerms, sched: ScheduledCashflow, a: ActualCashflow)
    requires IsActualRun(t, sched, a)
    requires forall k :: 0 <= k < t.n ==> 0.0 <= t.mdr[k] <= 1.0 && t.smm[k] >= 0.0
    requires t.n > 0 ==> t.sch[0] >= 0.0
    requires forall k :: 1 <= k < t.n ==> 0.0 <= t.sch[k] <= t.sch[k - 1]
    ensures forall i :: 1 <= i < t.n ==>
              a.newDef[i] >= 0.0 && a.volPrepay[i] >= 0.0 && a.actAm[i] >= 0.0 &&
              a.perfBal[i - 1] == a.newDef[i] + a.volPrepay[i] + a.actAm[i] + a.perfBal[i]
  {
    var rows := ActualRowsOf(a);
    forall i | 1 <= i < t.n
      ensures a.newDef[i] >= 0.0 && a.volPrepay[i] >= 0.0 && a.actAm[i] >= 0.0
      ensures a.perfBal[i - 1] == a.newDef[i] + a.volPrepay[i] + a.actAm[i] + a.perfBal[i]
    {
      assert ActualRolled(t, rows, i);
      if i > 1 {
        assert ActualRolled(t, rows, i - 1);
      }
      PerformingConserves(t, i, rows[i - 1].perf);
    }
  }

  /** Period by period: the performing balance and the foreclosure pipeline
      stay non-negative; the MDR is forced to zero in the liquidation window
      and new defaults are the performing balance times the MDR; nothing is
      amortized from defaults unless P&I is advanced; actual interest is
      expected interest less lost interest. */
  lemma ActualRunBounds(t: ActualTerms, sched: ScheduledCashflow, a: ActualCashflow)
    requires IsActualRun(t, sched, a)
    ensures a.perfBal[0] == sched.endingBalance[0] && a.mdr[0] == t.mdr[0]
    ensures forall i :: 0 <= i < t.n ==> a.fcl[i] >= 0.0
    ensures forall i :: 1 <= i < t.n ==>
              a.perfBal[i] >= 0.0 &&
              a.mdr[i] == (if InLiquidationWindow(i, t.n, t.monthsToLiquidation) then 0.0 else t.mdr[i]) &&
              a.newDef[i] == Share(a.perfBal[i - 1], a.mdr[i]) &&
              (!t.piAdvanced ==> a.amDef[i] == 0.0) &&
              a.actInt[i] == a.expInt[i] - a.lostInt[i]
    ensures forall i :: 1 <= i < t.n ==>
              a.expInt[i] == Share(a.perfBal[i - 1] + a.fcl[i - 1], t.monthlyRate) &&
              a.lostInt[i] == Share(a.newDef[i] + a.fcl[i - 1], t.monthlyRate) &&
              a.fcl[i] == MaxReal(a.newDef[i] + a.fcl[i - 1] - a.adb[i] - a.amDef[i], 0.0)
  {
    var rows := ActualRowsOf(a);
    forall i | 1 <= i < t.n
      ensures a.perfBal[i] >= 0.0 && a.fcl[i] >= 0.0
      ensures a.mdr[i] == (if InLiquidationWindow(i, t.n, t.monthsToLiquidation) then 0.0 else t.mdr[i])
      ensures a.newDef[i] == Share(a.perfBal[i - 1], a.mdr[i])
      ensures !t.piAdvanced ==> a.amDef[i] == 0.0
      ensures a.actInt[i] == a.expInt[i] - a.lostInt[i]
      ensures a.expInt[i] == Share(a.perfBal[i - 1] + a.fcl[i - 1], t.monthlyRate)
      ensures a.lostInt[i] == Share(a.newDef[i] + a.fcl[i - 1], t.monthlyRate)
      ensures a.fcl[i] == MaxReal(a.newDef[i] + a.fcl[i - 1] - a.adb[i] - a.amDef[i], 0.0)
    {
      assert ActualRolled(t, rows, i);
    }
  }

  /** Recovery lags default by `lag` periods: before the lag nothing is in
      recovery; from then on the amortized default balance comes from the new
      defaults of period i - lag, the loss is the severity's share of those
      defaults up to that balance, and loss and recovery add up to it. */
  lemma ActualRunLagPipeline(t: ActualTerms, sched: ScheduledCashflow, a: ActualCashflow)
    requires IsActualRun(t, sched, a)
    ensures forall i :: 1 <= i < t.n && i < t.lag ==>
              a.adb[i] == 0.0 && a.prinLoss[i] == 0.0 && a.prinRecov[i] == 0.0
    ensures forall i :: 1 <= i < t.n && 0 <= t.lag <= i ==>
              a.adb[i] == DefaultedBalance(t, i, a.newDef[i - t.lag]) &&
              a.prinLoss[i] == MinReal(Share(a.newDef[i - t.lag], t.severity[i - t.lag]), a.adb[i]) &&
              a.prinLoss[i] + a.prinRecov[i] == a.adb[i]
  {
    var rows := ActualRowsOf(a);
    forall i | 1 <= i < t.n
      ensures i < t.lag ==> a.adb[i] == 0.0 && a.prinLoss[i] == 0.0 && a.prinRecov[i] == 0.0
      ensures 0 <= t.lag <= i ==>
              a.adb[i] == DefaultedBalance(t, i, a.newDef[i - t.lag]) &&
              a.prinLoss[i] == MinReal(Share(a.newDef[i - t.lag], t.severity[i - t.lag]), a.adb[i]) &&
              a.prinLoss[i] + a.prinRecov[i] == a.adb[i]
    {
      assert ActualRolled(t, rows, i);
    }
  }

  /** On an amortizing schedule the balance entering recovery never exceeds
      the amount that defaulted, and equals it when P&I is not advanced. */
  lemma DefaultedBalanceBounded(t: ActualTerms, i: int, defaulted: real)
    requires TermsShape(t) && 0 <= t.lag <= i < t.n && i >= 1 && defaulted >= 0.0
    requires forall j, k :: 0 <= j <= k < t.n ==> 0.0 <= t.sch[k] <= t.sch[j]
    ensures 0.0 <= DefaultedBalance(t, i, defaulted) <= defaulted
    ensures !t.piAdvanced ==> DefaultedBalance(t, i, defaulted) == defaulted
  {
    var d := i - t.lag;
    if t.piAdvanced && d > 0 && t.sch[d - 1] > 0.0 {
      QuotientAtMostOne(t.sch[i - 1], t.sch[d - 1]);
      UnitShare(defaulted, t.sch[i - 1] / t.sch[d - 1]);
    } else if t.piAdvanced && d == 0 && t.sch[0] > 0.0 {
      QuotientAtMostOne(t.sch[i - 1], t.sch[0]);
      UnitShare(defaulted, t.sch[i - 1] / t.sch[0]);
    }
  }

  /** A period with no prepayment, no default and nothing earlier in
      recovery follows the schedule exactly. */
  lemma ZeroCurveStep(t: ActualTerms, i: int, prev: ActualRow, earlierDefault: real)
    requires TermsShape(t) && 1 <= i < t.n
    requires t.smm[i] == 0.0 && t.mdr[i] == 0.0 && earlierDefault == 0.0
    requires prev.perf == t.sch[i - 1] && prev.fcl == 0.0 && 0.0 <= t.sch[i] <= t.sch[i - 1]
    ensures var r := ActualStep(t, i, prev, earlierDefault);
            r.perf == t.sch[i] && r.newDef == 0.0 && r.volPrepay == 0.0 && r.fcl == 0.0 &&
            r.lostInt == 0.0 && r.actAm == t.sch[i - 1] - t.sch[i] &&
            r.expInt == Share(t.sch[i - 1], t.monthlyRate)
  {
    var b := t.sch[i - 1];
    if b > 0.0 {
      AmortizedPart(b, t.sch[i]);
    }
    var p := PerformingStep(t, i, b);
    assert p.newDef == 0.0;
    assert Share(b - p.newDef, 1.0 - p.survival) == b - t.sch[i];
  }

  lemma {:induction false} ZeroCurveAt(t: ActualTerms, rows: seq<ActualRow>, i: int)
    requires IsActualRows(t, rows) && 0 <= i < t.n
    requires forall k :: 0 <= k < t.n ==> t.smm[k] == 0.0 && t.mdr[k] == 0.0
    requires forall k :: 1 <= k < t.n ==> 0.0 <= t.sch[k] <= t.sch[k - 1]
    ensures rows[i].perf == t.sch[i] && rows[i].fcl == 0.0 && rows[i].newDef == 0.0
    ensures rows[i].volPrepay == 0.0 && rows[i].lostInt == 0.0
    ensures i >= 1 ==> rows[i].actAm == t.sch[i - 1] - t.sch[i] &&
                       rows[i].expInt == Share(t.sch[i - 1], t.monthlyRate)
    decreases i
  {
    if i > 0 {
      ZeroCurveAt(t, rows, i - 1);
      if t.lag > 0 && i >= t.lag {
        ZeroCurveAt(t, rows, i - t.lag);
      }
      assert ActualRolled(t, rows, i);
      ZeroCurveStep(t, i, rows[i - 1], EarlierDefault(t, rows, i));
    }
  }

  /** With all-zero SMM and MDR curves and the scheduled coupon, the actual
      run reproduces the scheduled run: the performing balance is the
      scheduled balance, there are no defaults, prepayments, foreclosures or
      lost interest, amortization is the scheduled principal and expected
      interest is the scheduled interest. */
  lemma ZeroCurvesReproduceSchedule(originalBalance: real, currentBalance: real, coupon: real,
                                    remainingTerm: int, sched: ScheduledCashflow,
                                    smmCurve: seq<real>, mdrCurve: seq<real>, severityCurve: seq<real>,
                                    severityLag: int, piAdvanced: bool, monthsToLiquidation: int,
                                    a: ActualCashflow)
    requires IsScheduledRun(originalBalance, currentBalance, coupon, remainingTerm, sched)
    requires currentBalance >= 0.0
    requires |smmCurve| > 0 && |mdrCurve| > 0 && |severityCurve| > 0
    requires severityLag >= 0 || remainingTerm == 0
    requires forall k :: 0 <= k < |smmCurve| ==> smmCurve[k] == 0.0
    requires forall k :: 0 <= k < |mdrCurve| ==> mdrCurve[k] == 0.0
    requires IsActualRun(ActualTermsOf(sched, smmCurve, mdrCurve, severityCurve, severityLag, coupon,
                                       piAdvanced, monthsToLiquidation), sched, a)
    ensures forall i :: 0 <= i <= remainingTerm ==>
              a.perfBal[i] == sched.endingBalance[i] && a.newDef[i] == 0.0 && a.volPrepay[i] == 0.0 &&
              a.fcl[i] == 0.0 && a.lostInt[i] == 0.0
    ensures forall i :: 1 <= i <= remainingTerm ==>
              a.actAm[i] == sched.principalPaid[i] && a.expInt[i] == sched.interestPaid[i]
  {
    var t := ActualTermsOf(sched, smmCurve, mdrCurve, severityCurve, severityLag, coupon,
                           piAdvanced, monthsToLiquidation);
    ScheduledRunBalances(originalBalance, currentBalance, coupon, remainingTerm, sched);
    ZeroPadded(smmCurve, t.n);
    ZeroPadded(mdrCurve, t.n);
    ZeroCurvesFollowSchedule(t, sched, a);
    assert t.n == remainingTerm + 1;
    forall i | 1 <= i <= remainingTerm
      ensures a.actAm[i] == sched.principalPaid[i] && a.expInt[i] == sched.interestPaid[i]
    {
      assert a.actAm[i] == t.sch[i - 1] - t.sch[i];
      assert sched.principalPaid[i] == sched.endingBalance[i - 1] - sched.endingBalance[i];
      assert a.expInt[i] == Share(t.sch[i - 1], t.monthlyRate);
      assert sched.interestPaid[i] == Share(sched.endingBalance[i - 1], coupon / 12.0);
    }
  }

  lemma ZeroPadded(curve: seq<real>, n: nat)
    requires |curve| > 0 && forall k :: 0 <= k < |curve| ==> curve[k] == 0.0
    ensures forall k :: 0 <= k < n ==> EdgePad(curve, n)[k] == 0.0
  {
  }

  /** With zero SMM and MDR curves over an amortizing schedule the actual
      run follows the schedule. */
  lemma ZeroCurvesFollowSchedule(t: ActualTerms, sched: ScheduledCashflow, a: ActualCashflow)
    requires IsActualRun(t, sched, a)
    requires forall k :: 0 <= k < t.n ==> t.smm[k] == 0.0 && t.mdr[k] == 0.0
    requires forall k :: 1 <= k < t.n ==> 0.0 <= t.sch[k] <= t.sch[k - 1]
    ensures forall i :: 0 <= i < t.n ==>
              a.perfBal[i] == t.sch[i] && a.fcl[i] == 0.0 && a.newDef[i] == 0.0 &&
              a.volPrepay[i] == 0.0 && a.lostInt[i] == 0.0
    ensures forall i :: 1 <= i < t.n ==>
              a.actAm[i] == t.sch[i - 1] - t.sch[i] && a.expInt[i] == Share(t.sch[i - 1], t.monthlyRate)
  {
    var rows := ActualRowsOf(a);
    ZeroCurveRows(t, rows);
    forall i | 0 <= i < t.n
      ensures a.perfBal[i] == rows[i].perf && a.fcl[i] == rows[i].fcl && a.newDef[i] == rows[i].newDef
      ensures a.volPrepay[i] == rows[i].volPrepay && a.lostInt[i] == rows[i].lostInt
      ensures a.actAm[i] == rows[i].actAm && a.expInt[i] == rows[i].expInt
    {
    }
  }

  lemma ZeroCurveRows(t: ActualTerms, rows: seq<ActualRow>)
    requires IsActualRows(t, rows)
    requires forall k :: 0 <= k < t.n ==> t.smm[k] == 0.0 && t.mdr[k] == 0.0
    requires forall k :: 1 <= k < t.n ==> 0.0 <= t.sch[k] <= t.sch[k - 1]
    ensures forall i :: 0 <= i < t.n ==>
              rows[i].perf == t.sch[i] && rows[i].fcl == 0.0 && rows[i].newDef == 0.0 &&
              rows[i].volPrepay == 0.0 && rows[i].lostInt == 0.0
    ensures forall i :: 1 <= i < t.n ==>
              rows[i].actAm == t.sch[i - 1] - t.sch[i] && rows[i].expInt == Share(t.sch[i - 1], t.monthlyRate)
  {
    forall i | 0 <= i < t.n
      ensures rows[i].perf == t.sch[i] && rows[i].fcl == 0.0 && rows[i].newDef == 0.0
      ensures rows[i].volPrepay == 0.0 && rows[i].lostInt == 0.0
      ensures i >= 1 ==> rows[i].actAm == t.sch[i - 1] - t.sch[i] &&
                         rows[i].expInt == Share(t.sch[i - 1], t.monthlyRate)
    {
      ZeroCurveAt(t, rows, i);
    }
  }
}
