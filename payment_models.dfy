/** Rate conventions of the BMA Uniform Practices/Standard Formulas:
    SMM/CPR (section B.2), the PSA prepayment ramp (SF-5 to SF-10), the ABS
    convention (section B.4, SF-13), the SDA default curve (section C.4,
    SF-20 to SF-22) and the single-month factor relations of SF-6/SF-7.
    Rates are percentages unless said otherwise; SMM is a decimal in
    smm_from_factors and project_act_end_factor. */
module PaymentModels {
  import opened Wrappers
  import opened Powers
  import opened ScheduledPayments

  // ---------------------------------------------------------------------------
  // SMM and CPR
  // ---------------------------------------------------------------------------

  /** CPR = 100 * (1 - (1 - SMM)^12) for a decimal SMM. */
  function SmmToCpr(smm: real): (cpr: real)
    ensures smm == 0.0 ==> cpr == 0.0
    ensures smm == 1.0 ==> cpr == 100.0
    ensures 0.0 <= smm <= 1.0 ==> 0.0 <= cpr <= 100.0
  {
    PowOfOne(12);
    PowOfZero(12);
    if 0.0 <= smm <= 1.0 then PowUnitInterval(1.0 - smm, 12); 100.0 * (1.0 - Pow(1.0 - smm, 12))
    else 100.0 * (1.0 - Pow(1.0 - smm, 12))
  }

  /** A higher monthly rate never gives a lower annual rate. */
  lemma SmmToCprMonotone(s1: real, s2: real)
    requires 0.0 <= s1 <= s2 <= 1.0
    ensures SmmToCpr(s1) <= SmmToCpr(s2)
  {
    PowMonotone(1.0 - s2, 1.0 - s1, 12);
  }

  // ---------------------------------------------------------------------------
  // PSA
  // ---------------------------------------------------------------------------

  /** CPR of month `month` under `psa` percent PSA: 0 at origination, a ramp
      of 0.2% per month times psa/100 up to month 30, then a plateau; capped
      at 100. */
  function PsaToCpr(psa: real, month: int): (cpr: real)
    ensures month <= 0 ==> cpr == 0.0
    ensures cpr <= 100.0
    ensures psa >= 0.0 ==> 0.0 <= cpr
    ensures 1 <= month && psa / 100.0 * 0.2 * MinInt(month, 30) as real <= 100.0 ==>
              cpr == psa * MinInt(month, 30) as real / 500.0
  {
    if month <= 0 then 0.0 else MinReal(psa / 100.0 * 0.2 * MinInt(month, 30) as real, 100.0)
  }

  /** For a non-negative speed the PSA curve never decreases with age. */
  lemma PsaToCprMonotone(psa: real, m1: int, m2: int)
    requires psa >= 0.0 && m1 <= m2
    ensures PsaToCpr(psa, m1) <= PsaToCpr(psa, m2)
  {
    if m1 >= 1 {
      RampMonotone(psa / 100.0 * 0.2, MinInt(m1, 30) as real, MinInt(m2, 30) as real);
    }
  }

  lemma RampMonotone(ramp: real, a: real, b: real)
    requires ramp >= 0.0 && a <= b
    ensures MinReal(ramp * a, 100.0) <= MinReal(ramp * b, 100.0)
  {
    ProductMonotone(a, b, ramp);
  }

  /** From month 30 on, the PSA curve is flat. */
  lemma PsaToCprPlateau(psa: real, month: int)
    requires month >= 30
    ensures PsaToCpr(psa, month) == PsaToCpr(psa, 30)
  {
  }

  /** The PSA speed that produces `cpr` in month `month`; 0 at origination. */
  function CprToPsa(cpr: real, month: int): (psa: real)
    ensures month <= 0 ==> psa == 0.0
    ensures month >= 1 ==> psa * MinInt(month, 30) as real == cpr * 500.0
  {
    if month <= 0 then 0.0 else cpr * 500.0 / MinInt(month, 30) as real
  }

  /** PSA -> CPR -> PSA is the identity wherever the 100 cap is not hit. */
  lemma PsaRoundTrip(psa: real, month: int)
    requires month >= 1 && psa / 100.0 * 0.2 * MinInt(month, 30) as real <= 100.0
    ensures CprToPsa(PsaToCpr(psa, month), month) == psa
  {
    var e := MinInt(month, 30) as real;
    CancelEqual(CprToPsa(PsaToCpr(psa, month), month), psa, e);
  }

  /** CPR -> PSA -> CPR is the identity for every CPR up to 100. */
  lemma CprRoundTrip(cpr: real, month: int)
    requires month >= 1 && cpr <= 100.0
    ensures PsaToCpr(CprToPsa(cpr, month), month) == cpr
  {
    var e := MinInt(month, 30) as real;
    var psa := CprToPsa(cpr, month);
    assert psa * e == cpr * 500.0;
    assert psa / 100.0 * 0.2 * e == psa * e / 500.0;
  }

  /** The PSA CPR curve indexed by age 0..term, with 0 at origination.  A
      negative term leaves no element 0 to reset. */
  function GeneratePsaCurve(psa: real, term: int): (res: Result<seq<real>>)
    ensures res.Err? <==> term < 0
    ensures res.Ok? ==> |res.value| == term + 1 && res.value[0] == 0.0
    ensures res.Ok? ==> forall n :: 0 <= n <= term ==> res.value[n] == PsaToCpr(psa, n)
  {
    if term < 0 then Err(IndexOutOfRange)
    else
      var cpr := seq(term + 1, n => MinReal(psa / 100.0 * 0.2 * MinInt(n, 30) as real, 100.0));
      assert forall n :: 1 <= n <= term ==> cpr[n] == PsaToCpr(psa, n);
      Ok(cpr[0 := 0.0])
  }

  // ---------------------------------------------------------------------------
  // ABS
  // ---------------------------------------------------------------------------

  /** SMM (percent) of month `month` under `abs` percent ABS, as written:
      100*ABS / (100 - ABS*(month-1)), and 100 once the denominator is not
      positive. */
  function AbsToSmmAsWritten(abs: real, month: int): (smm: real)
    ensures month <= 0 ==> smm == 0.0
    ensures month == 1 ==> smm == abs
    ensures month >= 1 && 100.0 - abs * (month - 1) as real <= 0.0 ==> smm == 100.0
  {
    if month <= 0 then 0.0
    else
      var denominator := 100.0 - abs * (month - 1) as real;
      if denominator <= 0.0 then 100.0 else 100.0 * abs / denominator
  }

  /** As written, the SMM exceeds 100% just before the denominator reaches
      zero, and then falls back to 100: at 3% ABS, month 34 gives 300 and
      month 35 gives 100. */
  lemma AbsToSmmAsWrittenExceedsCap()
    ensures AbsToSmmAsWritten(3.0, 34) == 300.0
    ensures AbsToSmmAsWritten(3.0, 35) == 100.0
    ensures AbsToSmmAsWritten(3.0, 34) > AbsToSmmAsWritten(3.0, 35)
  {
  }

  /** SMM (percent) of month `month` under `abs` percent ABS, with every
      month whose formula value would exceed 100 capped at 100 (all the
      remaining loans prepay). */
  function AbsToSmm(abs: real, month: int): (smm: real)
    ensures month <= 0 ==> smm == 0.0
    ensures month == 1 ==> smm == MinReal(abs, 100.0)
    ensures month >= 1 && 100.0 - abs * (month - 1) as real <= 0.0 ==> smm == 100.0
    ensures abs >= 0.0 ==> 0.0 <= smm <= 100.0
    ensures smm == MinReal(AbsToSmmAsWritten(abs, month), 100.0)
  {
    if month <= 0 then 0.0
    else
      var denominator := 100.0 - abs * (month - 1) as real;
      if denominator <= 0.0 then 100.0
      else
        var smm := 100.0 * abs / denominator;
        assert abs >= 0.0 ==> smm >= 0.0 by {
          if abs >= 0.0 {
            PositiveQuotientOrZero(100.0 * abs, denominator);
          }
        }
        MinReal(smm, 100.0)
  }

  lemma PositiveQuotientOrZero(a: real, b: real)
    requires a >= 0.0 && b > 0.0
    ensures a / b >= 0.0
  {
  }

  /** For a non-negative ABS speed the capped SMM never decreases with age. */
  lemma AbsToSmmMonotone(abs: real, m1: int, m2: int)
    requires abs >= 0.0 && m1 <= m2
    ensures AbsToSmm(abs, m1) <= AbsToSmm(abs, m2)
  {
    if m1 >= 1 {
      var d1 := 100.0 - abs * (m1 - 1) as real;
      var d2 := 100.0 - abs * (m2 - 1) as real;
      ProductMonotone((m1 - 1) as real, (m2 - 1) as real, abs);
      if d2 > 0.0 {
        QuotientAntitone(100.0 * abs, d2, d1);
      }
    }
  }

  lemma QuotientAntitone(a: real, d2: real, d1: real)
    requires a >= 0.0 && 0.0 < d2 <= d1
    ensures a / d1 <= a / d2
  {
    var q1, q2 := a / d1, a / d2;
    assert q1 * d1 == a && q2 * d2 == a;
    PositiveQuotientOrZero(a, d1);
    ProductMonotone(d2, d1, q1);
    assert q1 * d2 <= q2 * d2;
    CancelPositive(q1, q2, d2);
  }

  // ---------------------------------------------------------------------------
  // SDA
  // ---------------------------------------------------------------------------

  /** The 100% SDA CDR curve: 0.02% per month up to month 30, 0.60% for
      months 31-60, down by 0.0095% a month to 0.03% at month 120, then
      0.03%. */
  function SdaBaseCdr(month: int): real
  {
    if month <= 30 then 0.02 * month as real
    else if month <= 60 then 0.60
    else if month <= 120 then 0.60 - 0.0095 * (month - 60) as real
    else 0.03
  }

  /** The segments join: the ramp reaches the plateau at month 30, the
      down-slope starts at the plateau value at month 60 and reaches the
      tail value 0.03 at month 120. */
  lemma SdaBaseCdrContinuous()
    ensures SdaBaseCdr(30) == SdaBaseCdr(31) == 0.60
    ensures SdaBaseCdr(60) == 0.60 && SdaBaseCdr(61) == 0.60 - 0.0095
    ensures SdaBaseCdr(120) == SdaBaseCdr(121) == 0.03
  {
  }

  /** The base curve rises to its peak 0.60 and then never rises again; from
      age 0 it stays within [0, 0.60]. */
  lemma SdaBaseCdrShape(m1: int, m2: int)
    requires m1 <= m2
    ensures m2 <= 60 ==> SdaBaseCdr(m1) <= SdaBaseCdr(m2)
    ensures 30 <= m1 ==> SdaBaseCdr(m2) <= SdaBaseCdr(m1)
    ensures 0 <= m1 ==> 0.0 <= SdaBaseCdr(m1) <= 0.60
  {
  }

  /** Months within the last `mtl` of the term: no new defaults are
      assumed there, because they could not liquidate before maturity. */
  predicate InLiquidationTail(month: int, term: Option<int>, mtl: int)
  {
    term.Some? && mtl > 0 && month > (if term.value - mtl > 0 then term.value - mtl else 0)
  }

  /** CDR (percent) of month `month` under `sda` percent SDA. */
  function SdaToCdr(sda: real, month: int, term: Option<int>, mtl: int): (cdr: real)
    ensures InLiquidationTail(month, term, mtl) ==> cdr == 0.0
    ensures !InLiquidationTail(month, term, mtl) ==> cdr == SdaBaseCdr(month) * (sda / 100.0)
  {
    if InLiquidationTail(month, term, mtl) then 0.0 else SdaBaseCdr(month) * (sda / 100.0)
  }

  /** The SDA CDR curve indexed by age 0..term. */
  function GenerateSdaCurve(sda: real, term: int, mtl: int): (curve: seq<real>)
    ensures |curve| == if term >= 0 then term + 1 else 0
    ensures forall i :: 0 <= i < |curve| ==> curve[i] == SdaToCdr(sda, i, Some(term), mtl)
    ensures |curve| > 0 ==> curve[0] == 0.0
    ensures mtl > 0 ==> forall i :: 0 < i < |curve| && i > term - mtl ==> curve[i] == 0.0
  {
    seq(if term >= 0 then term + 1 else 0, i => SdaToCdr(sda, i, Some(term), mtl))
  }

  // ---------------------------------------------------------------------------
  // Factors and SMM (SF-6/SF-7), one-month window
  // ---------------------------------------------------------------------------

  /** Single-month SMM (decimal) implied by actual and scheduled factors:
      1 - act_end / (act_beg * sch_end / sch_beg). */
  function SmmFromFactors(actBeg: real, actEnd: real, schBeg: real, schEnd: real): (res: Result<real>)
    ensures res.Err? <==> schBeg == 0.0 || actBeg == 0.0 || schEnd == 0.0
    ensures res.Ok? ==> (1.0 - res.value) * (actBeg * (schEnd / schBeg)) == actEnd
    ensures res.Ok? && 0.0 <= actEnd <= actBeg * (schEnd / schBeg) ==> 0.0 <= res.value <= 1.0
    ensures res.Ok? && actEnd == actBeg * (schEnd / schBeg) ==> res.value == 0.0
  {
    if schBeg == 0.0 then Err(DivisionByZero)
    else
      var scheduled := actBeg * (schEnd / schBeg);
      NonZeroScheduled(actBeg, schEnd, schBeg);
      if scheduled == 0.0 then Err(DivisionByZero)
      else
        SurvivalFraction(actEnd, scheduled);
        Ok(1.0 - actEnd / scheduled)
  }

  lemma NonZeroScheduled(actBeg: real, schEnd: real, schBeg: real)
    requires schBeg != 0.0
    ensures actBeg * (schEnd / schBeg) == 0.0 <==> actBeg == 0.0 || schEnd == 0.0
  {
    if actBeg != 0.0 && schEnd != 0.0 {
      assert schEnd / schBeg != 0.0;
    }
  }

  lemma SurvivalFraction(actEnd: real, scheduled: real)
    requires scheduled != 0.0
    ensures (1.0 - (1.0 - actEnd / scheduled)) * scheduled == actEnd
    ensures 0.0 <= actEnd <= scheduled ==> 0.0 <= 1.0 - actEnd / scheduled <= 1.0
    ensures actEnd == scheduled ==> 1.0 - actEnd / scheduled == 0.0
  {
    var q := actEnd / scheduled;
    assert q * scheduled == actEnd;
    if 0.0 <= actEnd <= scheduled {
      UnitFraction(actEnd, scheduled);
    }
  }

  /** len(set(cv)) == 1: a non-empty vector of one repeated rate. */
  predicate SingleRate(cv: seq<real>)
  {
    |cv| > 0 && forall k :: 0 <= k < |cv| ==> cv[k] == cv[0]
  }

  /** Python sequence indexing: negative indices count from the end. */
  function PyIndex(s: seq<real>, i: int): (res: Result<real>)
    ensures res.Ok? <==> -|s| <= i < |s|
    ensures 0 <= i < |s| ==> res == Ok(s[i])
    ensures -|s| <= i < 0 ==> res == Ok(s[|s| + i])
  {
    if 0 <= i < |s| then Ok(s[i])
    else if -|s| <= i < 0 then Ok(s[|s| + i])
    else Err(IndexOutOfRange)
  }

  /** The scheduled factors at the start and at the end of a window of n
      months that starts at age beginningAge, with the warnings of the calls
      that produced them: from the closed form when the coupon vector holds
      one rate, otherwise from the floating trajectory to maturity. */
  function ScheduledWindow(cv: seq<real>, originalTerm: int, beginningAge: int, n: nat)
    : (res: Result<Advised<(real, real)>>)
    requires !SingleRate(cv) ==> CouponsAboveFloor(cv)
    ensures SingleRate(cv) ==>
              var beg := SchBalanceFactorFixedRate(cv[0], originalTerm, originalTerm - beginningAge);
              var end := SchBalanceFactorFixedRate(cv[0], originalTerm, originalTerm - beginningAge - n);
              && (res.Ok? <==> beg.Ok? && end.Ok?)
              && (res.Err? && beg.Err? ==> res.error == beg.error)
              && (res.Err? && beg.Ok? ==> res.error == end.error)
              && (res.Ok? ==> res.value == Advised((beg.value.value, end.value.value),
                                                   beg.value.warnings + end.value.warnings))
    ensures !SingleRate(cv) ==>
              var tr := SchBalanceFactors(cv, originalTerm, originalTerm - beginningAge - n, originalTerm);
              && (res.Ok? <==> tr.Ok? && PyIndex(tr.value.value.balanceFactors, beginningAge).Ok? &&
                               PyIndex(tr.value.value.balanceFactors, beginningAge + n).Ok?)
              && (res.Err? && tr.Err? ==> res.error == tr.error)
              && (res.Ok? ==> res.value == Advised((PyIndex(tr.value.value.balanceFactors, beginningAge).value,
                                                    PyIndex(tr.value.value.balanceFactors, beginningAge + n).value),
                                                   tr.value.warnings))
  {
    var remainingBeg := originalTerm - beginningAge;
    var remainingEnd := remainingBeg - n;
    if SingleRate(cv) then
      var beg :- SchBalanceFactorFixedRate(cv[0], originalTerm, remainingBeg);
      var end :- SchBalanceFactorFixedRate(cv[0], originalTerm, remainingEnd);
      Ok(Advised((beg.value, end.value), beg.warnings + end.warnings))
    else
      var trajectory :- SchBalanceFactors(cv, originalTerm, remainingEnd, originalTerm);
      var survival := trajectory.value.balanceFactors;
      var beg :- PyIndex(survival, beginningAge);
      var end :- PyIndex(survival, beginningAge + n);
      Ok(Advised((beg, end), trajectory.warnings))
  }

  /** On the floating path, inside the trajectory, the scheduled survival
      ratio sch_end / sch_beg of the window is the product of the survival
      factors 1 - am[k] of the months the window covers. */
  lemma FloatingWindowSurvival(cv: seq<real>, originalTerm: int, beginningAge: int, n: nat)
    requires !SingleRate(cv) && CouponsAboveFloor(cv) && beginningAge >= 0
    requires ScheduledWindow(cv, originalTerm, beginningAge, n).Ok?
    requires ScheduledWindow(cv, originalTerm, beginningAge, n).value.value.0 != 0.0
    ensures var tr := SchBalanceFactors(cv, originalTerm, originalTerm - beginningAge - n, originalTerm).value.value;
            var w := ScheduledWindow(cv, originalTerm, beginningAge, n).value.value;
            && beginningAge + n < |tr.amFactors|
            && w.1 / w.0 == WindowSurvival(tr.amFactors, beginningAge, n)
  {
    var tr := SchBalanceFactors(cv, originalTerm, originalTerm - beginningAge - n, originalTerm).value.value;
    var w := ScheduledWindow(cv, originalTerm, beginningAge, n).value.value;
    var v := SchPaymentFactorVector(cv, originalTerm, originalTerm - beginningAge - n, originalTerm).value.value;
    assert tr == Trajectory(v);
    assert w.0 == tr.balanceFactors[beginningAge] && w.1 == tr.balanceFactors[beginningAge + n];
    TrajectoryWindowRatio(v, beginningAge, n);
  }

  /** The survival of a pool through the monthly SMMs: prod(1 - smm). */
  function PrepaySurvival(smm: seq<real>): real
  {
    Product(seq(|smm|, i requires 0 <= i < |smm| => 1.0 - smm[i]))
  }

  /** act_beg * (sch_end / sch_beg) * prod(1 - smm): the actual factor
      after scheduled amortization and prepayment. */
  function Projected(actBeg: real, window: (real, real), smm: seq<real>): real
    requires window.0 != 0.0
  {
    actBeg * (window.1 / window.0) * PrepaySurvival(smm)
  }

  /** Projects the actual factor over the window covered by `smm`, with the
      warnings raised while computing the window. */
  function ProjectActEndFactor(actBeg: real, smm: seq<real>, cv: seq<real>, originalTerm: int, beginningAge: int)
    : (res: Result<Advised<real>>)
    requires !SingleRate(cv) ==> CouponsAboveFloor(cv)
    ensures var w := ScheduledWindow(cv, originalTerm, beginningAge, |smm|);
            && (res.Ok? <==> w.Ok? && w.value.value.0 != 0.0)
            && (w.Err? ==> res == Err(w.error))
            && (w.Ok? && w.value.value.0 == 0.0 ==> res == Err(DivisionByZero))
            && (res.Ok? ==> res.value == Advised(Projected(actBeg, w.value.value, smm), w.value.warnings))
  {
    var window :- ScheduledWindow(cv, originalTerm, beginningAge, |smm|);
    if window.value.0 == 0.0 then Err(DivisionByZero)
    else Ok(Advised(Projected(actBeg, window.value, smm), window.warnings))
  }

  /** With no prepayment the projection is the scheduled factor
      act_beg * sch_end / sch_beg. */
  lemma ZeroSmmIsScheduled(actBeg: real, window: (real, real), smm: seq<real>)
    requires window.0 != 0.0
    requires forall i :: 0 <= i < |smm| ==> smm[i] == 0.0
    ensures Projected(actBeg, window, smm) == actBeg * (window.1 / window.0)
  {
    var xs := seq(|smm|, i requires 0 <= i < |smm| => 1.0 - smm[i]);
    ProductOfConstant(xs, 1.0);
    PowOfOne(|smm|);
  }

  /** A month in which every remaining loan prepays leaves nothing. */
  lemma FullPrepaymentIsZero(actBeg: real, window: (real, real), smm: seq<real>, j: nat)
    requires window.0 != 0.0
    requires j < |smm| && smm[j] == 1.0
    ensures Projected(actBeg, window, smm) == 0.0
  {
    var xs := seq(|smm|, i requires 0 <= i < |smm| => 1.0 - smm[i]);
    ProductWithZero(xs, j);
  }

  lemma {:induction false} ProductWithZero(xs: seq<real>, j: nat)
    requires j < |xs| && xs[j] == 0.0
    ensures Product(xs) == 0.0
  {
    if j < |xs| - 1 {
      ProductWithZero(xs[..|xs| - 1], j);
    }
  }

  /** SF-6/SF-7 round trip: projecting one month with the SMM recovered
      from the factors reproduces the actual ending factor. */
  lemma SmmProjectionRoundTrip(actBeg: real, actEnd: real, window: (real, real))
    requires SmmFromFactors(actBeg, actEnd, window.0, window.1).Ok?
    ensures window.0 != 0.0
    ensures Projected(actBeg, window, [SmmFromFactors(actBeg, actEnd, window.0, window.1).value]) == actEnd
  {
    var smm := SmmFromFactors(actBeg, actEnd, window.0, window.1).value;
    var xs := seq(1, i requires 0 <= i < 1 => 1.0 - [smm][i]);
    assert xs[..0] == [];
    assert Product(xs) == 1.0 - smm;
    var scheduled := actBeg * (window.1 / window.0);
    assert (1.0 - smm) * scheduled == actEnd;
    assert Projected(actBeg, window, [smm]) == scheduled * (1.0 - smm);
  }

  /** From origination with no prepayment, a fixed-rate projection lands on
      the closed-form scheduled balance BAL(C, T, T - n). */
  lemma ZeroSmmFromOrigination(smm: seq<real>, cv: seq<real>, originalTerm: int)
    requires SingleRate(cv) && cv[0] >= 0.0
    requires 1 <= originalTerm && |smm| <= originalTerm
    requires forall i :: 0 <= i < |smm| ==> smm[i] == 0.0
    ensures ProjectActEndFactor(1.0, smm, cv, originalTerm, 0).Ok?
    ensures ProjectActEndFactor(1.0, smm, cv, originalTerm, 0).value.value ==
            SchBalanceFactorFixedRate(cv[0], originalTerm, originalTerm - |smm|).value.value
  {
    var window := ScheduledWindow(cv, originalTerm, 0, |smm|).value.value;
    assert window.0 == 1.0;
    ZeroSmmIsScheduled(1.0, window, smm);
  }
}
