/** The loan record that feeds the cash-flow runners: its validation, its age,
    the back-extension of a floating-rate index to the full original term,
    the coupon vector, and the two adapters that unpack a loan into the
    scheduled and actual runs.  Rates and the servicing fee are held in
    percent (8.0 for 8%) and converted to decimals for the runners. */
module Loans {
  import opened Wrappers
  import opened Powers
  import opened ScheduledPayments
  import opened Cashflows

  /** A loan.  rateIndex is None for a fixed-rate loan; for a floating-rate
      loan it holds the annual index rates in percent, one per period. */
  datatype Loan = Loan(
    originalBalance: real,
    currentBalance: real,
    rateMargin: real,
    rateIndex: Option<seq<real>>,
    servicingFee: real,
    originalTerm: int,
    remainingTerm: int,
    accruedInterest: real,
    piAdvanced: bool,
    rateCap: Option<real>,
    rateFloor: Option<real>)

  /** What construction guarantees of every loan. */
  predicate Valid(l: Loan)
  {
    l.originalTerm > 0 && 0 <= l.remainingTerm <= l.originalTerm &&
    l.originalBalance >= 0.0 && l.currentBalance <= l.originalBalance &&
    (l.rateCap.Some? && l.rateFloor.Some? ==> l.rateCap.value >= l.rateFloor.value)
  }

  /** Construction with its checks, in the library's order: the original
      term, the remaining term, the original balance, the terms against each
      other, the balances against each other, and the rate cap against the
      floor. */
  function NewLoan(originalBalance: real, currentBalance: real, rateMargin: real,
                   rateIndex: Option<seq<real>>, servicingFee: real, originalTerm: int,
                   remainingTerm: int, accruedInterest: real, piAdvanced: bool,
                   rateCap: Option<real>, rateFloor: Option<real>): (res: Result<Loan>)
    ensures originalTerm <= 0 ==> res == Err(NonPositiveOriginalTerm)
    ensures originalTerm > 0 && remainingTerm < 0 ==> res == Err(NegativeRemainingTerm)
    ensures originalTerm > 0 && remainingTerm >= 0 && originalBalance < 0.0 ==>
              res == Err(NegativeOriginalBalance)
    ensures 0 < originalTerm < remainingTerm && originalBalance >= 0.0 ==>
              res == Err(RemainingTermExceedsOriginal)
    ensures 0 <= remainingTerm <= originalTerm && 0 < originalTerm && 0.0 <= originalBalance < currentBalance ==>
              res == Err(CurrentBalanceExceedsOriginal)
    ensures 0 <= remainingTerm <= originalTerm && 0 < originalTerm && 0.0 <= originalBalance &&
            currentBalance <= originalBalance && rateCap.Some? && rateFloor.Some? &&
            rateCap.value < rateFloor.value ==>
              res == Err(RateCapBelowFloor)
    ensures res.Ok? <==>
              Valid(Loan(originalBalance, currentBalance, rateMargin, rateIndex, servicingFee, originalTerm,
                         remainingTerm, accruedInterest, piAdvanced, rateCap, rateFloor))
    ensures res.Ok? ==>
              res.value == Loan(originalBalance, currentBalance, rateMargin, rateIndex, servicingFee,
                                originalTerm, remainingTerm, accruedInterest, piAdvanced, rateCap, rateFloor)
  {
    if originalTerm <= 0 then Err(NonPositiveOriginalTerm)
    else if remainingTerm < 0 then Err(NegativeRemainingTerm)
    else if originalBalance < 0.0 then Err(NegativeOriginalBalance)
    else if remainingTerm > originalTerm then Err(RemainingTermExceedsOriginal)
    else if currentBalance > originalBalance then Err(CurrentBalanceExceedsOriginal)
    else if rateCap.Some? && rateFloor.Some? && rateCap.value < rateFloor.value then Err(RateCapBelowFloor)
    else Ok(Loan(originalBalance, currentBalance, rateMargin, rateIndex, servicingFee, originalTerm,
                 remainingTerm, accruedInterest, piAdvanced, rateCap, rateFloor))
  }

  /** Months since origination. */
  function Age(l: Loan): (age: int)
    requires Valid(l)
    ensures 0 <= age <= l.originalTerm && age + l.remainingTerm == l.originalTerm
  {
    l.originalTerm - l.remainingTerm
  }

  /** Fixed rate: no index, an empty index or an index of zeros; so a
      floating-rate loan is one whose index has a non-zero rate. */
  predicate IsFixedRate(l: Loan): (fixed: bool)
    ensures !fixed <==> l.rateIndex.Some? && exists k :: 0 <= k < |l.rateIndex.value| && l.rateIndex.value[k] != 0.0
  {
    l.rateIndex.None? || |l.rateIndex.value| == 0 ||
    forall k :: 0 <= k < |l.rateIndex.value| ==> l.rateIndex.value[k] == 0.0
  }

  /** The index over the whole original term.  A fixed-rate loan reads
      zeros; a floating-rate index at least as long as the term is cut to it;
      a shorter one is extended backwards by repeating its oldest rate. */
  function ExtendedIndex(l: Loan): (e: seq<real>)
    requires Valid(l)
    ensures |e| == l.originalTerm
    ensures IsFixedRate(l) ==> forall k :: 0 <= k < |e| ==> e[k] == 0.0
    ensures !IsFixedRate(l) && |l.rateIndex.value| >= l.originalTerm ==>
              e == l.rateIndex.value[..l.originalTerm]
  {
    if IsFixedRate(l) then Fill(l.originalTerm, 0.0)
    else
      var idx := l.rateIndex.value;
      if |idx| >= l.originalTerm then idx[..l.originalTerm]
      else Fill(l.originalTerm - |idx|, idx[0]) + idx
  }

  /** A short floating-rate index becomes the latest periods of the extended
      index, and every earlier period repeats its oldest rate. */
  lemma ShortIndexExtendedBackwards(l: Loan)
    requires Valid(l) && !IsFixedRate(l) && |l.rateIndex.value| < l.originalTerm
    ensures var idx := l.rateIndex.value;
            var shortfall := l.originalTerm - |idx|;
            var e := ExtendedIndex(l);
            e[shortfall..] == idx &&
            forall k :: 0 <= k < shortfall ==> e[k] == idx[0]
  {
    var idx := l.rateIndex.value;
    var shortfall := l.originalTerm - |idx|;
    assert ExtendedIndex(l) == Fill(shortfall, idx[0]) + idx;
    assert (Fill(shortfall, idx[0]) + idx)[shortfall..] == idx;
  }

  /** Annual coupons in percent for the next n periods (n defaults to the
      remaining term): empty for n <= 0, the margin throughout at a fixed
      rate, and otherwise the extended index from the loan's age on plus the
      margin, stopping at the end of the original term. */
  function CouponVector(l: Loan, numPeriods: Option<int>): (cv: seq<real>)
    requires Valid(l)
    ensures var n := if numPeriods.Some? then numPeriods.value else l.remainingTerm;
            && (n <= 0 ==> cv == [])
            && (n > 0 && IsFixedRate(l) ==> cv == Fill(n, l.rateMargin))
            && (n > 0 && !IsFixedRate(l) ==>
                  |cv| == MinInt(n, l.remainingTerm) &&
                  forall k :: 0 <= k < |cv| ==> cv[k] == ExtendedIndex(l)[Age(l) + k] + l.rateMargin)
  {
    var n := if numPeriods.Some? then numPeriods.value else l.remainingTerm;
    if n <= 0 then []
    else if IsFixedRate(l) then Fill(n, l.rateMargin)
    else
      var full := ExtendedIndex(l);
      var start := Age(l);
      var end := MinInt(Age(l) + n, l.originalTerm);
      seq(end - start, k requires 0 <= k < end - start => full[start + k] + l.rateMargin)
  }

  /** The current coupon in percent.  A floating-rate loan at maturity has
      no index entry at its age. */
  function CouponPercent(l: Loan): (res: Result<real>)
    requires Valid(l)
    ensures IsFixedRate(l) ==> res == Ok(l.rateMargin)
    ensures res.Err? <==> !IsFixedRate(l) && l.remainingTerm == 0
    ensures res.Err? ==> res.error == IndexOutOfRange
  {
    if IsFixedRate(l) then Ok(l.rateMargin)
    else
      var full := ExtendedIndex(l);
      if Age(l) < |full| then Ok(l.rateMargin + full[Age(l)]) else Err(IndexOutOfRange)
  }

  /** Before maturity the current coupon is the first entry of the coupon
      vector. */
  lemma CouponPercentStartsCouponVector(l: Loan)
    requires Valid(l) && l.remainingTerm > 0
    ensures CouponPercent(l).Ok?
    ensures |CouponVector(l, None)| == l.remainingTerm
    ensures CouponPercent(l).value == CouponVector(l, None)[0]
  {
    if !IsFixedRate(l) {
      assert MinInt(l.remainingTerm, l.remainingTerm) == l.remainingTerm;
    }
  }

  /** The coupon vector over the remaining term as decimals. */
  function CouponDecimalForCashflow(l: Loan): (c: seq<real>)
    requires Valid(l)
    ensures |c| == |CouponVector(l, Some(l.remainingTerm))|
    ensures forall k :: 0 <= k < |c| ==> c[k] * 100.0 == CouponVector(l, Some(l.remainingTerm))[k]
  {
    var cv := CouponVector(l, Some(l.remainingTerm));
    seq(|cv|, k requires 0 <= k < |cv| => cv[k] / 100.0)
  }

  function ServicingFeeDecimal(l: Loan): (fee: real)
    ensures fee * 100.0 == l.servicingFee
  {
    l.servicingFee / 100.0
  }

  /** The single coupon both adapters hand to the runners: the first
      decimal coupon, or zero at maturity. */
  function RunnerCoupon(l: Loan): (c: real)
    requires Valid(l)
    ensures l.remainingTerm > 0 ==> c * 100.0 == CouponPercent(l).value
    ensures l.remainingTerm == 0 ==> c == 0.0
  {
    var cv := CouponDecimalForCashflow(l);
    if |cv| > 0 then
      CouponPercentStartsCouponVector(l);
      cv[0]
    else 0.0
  }

  /** The scheduled run of a loan, over its remaining term at its current
      coupon. */
  method ScheduledCashflowFromLoan(l: Loan) returns (s: ScheduledCashflow)
    requires Valid(l)
    ensures IsScheduledRun(l.originalBalance, l.currentBalance, RunnerCoupon(l), l.remainingTerm, s)
  {
    var cv := CouponDecimalForCashflow(l);
    var coupon := if |cv| > 0 then cv[0] else 0.0;
    var res := RunScheduledCashflow(l.originalBalance, l.currentBalance, coupon, l.originalTerm,
                                    l.remainingTerm, l.accruedInterest, ServicingFeeDecimal(l));
    s := res.value;
  }

  /** The actual run of a loan over a scheduled run, at the loan's current
      coupon and P&I-advancing flag. */
  method ActualCashflowFromLoan(l: Loan, sched: ScheduledCashflow, smmCurve: seq<real>,
                                mdrCurve: seq<real>, severityCurve: seq<real>, severityLag: int,
                                monthsToLiquidation: int)
    returns (res: Result<ActualCashflow>)
    requires Valid(l)
    ensures |sched.period| > 0 && (|smmCurve| == 0 || |mdrCurve| == 0 || |severityCurve| == 0) ==>
              res == Err(EmptyCurve)
    ensures |sched.period| == 0 ==> res == Err(IndexOutOfRange)
    ensures |smmCurve| > 0 && |mdrCurve| > 0 && |severityCurve| > 0 && res.Err? ==>
              res.error == IndexOutOfRange
    ensures res.Ok? <==>
              |sched.period| > 0 && |smmCurve| > 0 && |mdrCurve| > 0 && |severityCurve| > 0 &&
              ScheduleReadable(sched.endingBalance, |sched.period|) && (severityLag >= 0 || |sched.period| == 1)
    ensures res.Ok? ==>
              IsActualRun(ActualTermsOf(sched, smmCurve, mdrCurve, severityCurve, severityLag, RunnerCoupon(l),
                                        l.piAdvanced, monthsToLiquidation), sched, res.value)
  {
    var cv := CouponDecimalForCashflow(l);
    var coupon := if |cv| > 0 then cv[0] else 0.0;
    res := RunActualCashflow(sched, smmCurve, mdrCurve, severityCurve, severityLag, coupon,
                             l.piAdvanced, monthsToLiquidation);
  }

  /** A fixed-rate loan with a positive coupon and a non-negative balance
      follows the closed-form balance of section B.1, re-amortized over its
      remaining term at its margin, and is paid off at maturity. */
  lemma FixedRateLoanSchedule(l: Loan, s: ScheduledCashflow)
    requires Valid(l) && IsFixedRate(l) && l.rateMargin > 0.0
    requires l.currentBalance >= 0.0 && l.remainingTerm >= 1
    requires IsScheduledRun(l.originalBalance, l.currentBalance, RunnerCoupon(l), l.remainingTerm, s)
    ensures forall i :: 0 <= i <= l.remainingTerm ==>
              s.endingBalance[i] ==
              l.currentBalance * SchBalanceFactorFixedRate(l.rateMargin, l.remainingTerm, l.remainingTerm - i).value.value
    ensures s.endingBalance[l.remainingTerm] == 0.0
  {
    var c := RunnerCoupon(l);
    assert c * 100.0 == l.rateMargin;
    ScheduledRunClosedForm(l.originalBalance, l.currentBalance, c, l.remainingTerm, s);
    ScheduledRunPaysOff(l.originalBalance, l.currentBalance, c, l.remainingTerm, s);
  }
}
