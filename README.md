# BMA Standard Formulas in Dafny

This project models the deterministic core of `bma_standard_formulas`, a Python implementation of the Bond Market Association's *Uniform Practices/Standard Formulas* (02/01/99) for mortgage pools, and proves properties of the model. It covers four parts:

* **Section B.1 scheduled amortization** (`scheduled_payments.py`). It includes:
  * the closed-form balance factor `BAL(M) = [1-(1+r)^-M]/[1-(1+r)^-M0]`;
  * the annuity (payment) factor and the single-period amortization factor;
  * the coupon-vector extension rule and the cumulative-product balance trajectory of a floating-rate loan;
  * the ending balance factor at the loan's age.
* **Section C.3 cash-flow runners** (`cashflows.py`). It includes:
  * the scheduled roll-forward;
  * the actual run with defaults, voluntary prepayments, the excess cap, the default-to-recovery lag pipeline, foreclosure, loss and recovery, and interest;
  * the `Loan` record, with its validation, age, index back-extension and coupon vector, and the two adapters that feed a loan to the runners.
* **Rate conventions** (`payment_models.py`). It includes:
  * SMM→CPR;
  * the PSA ramp and its inverse;
  * the PSA curve and the ABS→SMM rule;
  * the SDA default curve with its liquidation tail;
  * the forward projection of an actual pool factor, and single-month SMM recovery from factors.
* **Shared support** (`wrappers.dfy`, `powers.dfy`). It includes:
  * `Result`/`Option`, the library's error conditions, and its advisory warnings;
  * exact integer powers `x^n` and `x^-n`, and running products.

Arithmetic is over Dafny's exact `real`. `(1+r)^-M` is a recursive integer power. So identities that the Python tests check to a few decimal places are proved here as exact equalities.

Each Python `ValueError`, `IndexError` or `ZeroDivisionError` on a modelled path becomes `Err(e)` of `Result`. Each Python `warnings.warn` on a path that returns normally becomes a returned advisory flag. `Advised(value, warnings)` pairs a result with those flags. An `Err` carries no advisories, so a warning issued before a later error on the same call is not kept (see "## Left out").

The two runners are methods. Each one allocates a fresh array of per-period records and fills it in a `for i in 1..periods-1` loop. For the actual run, the checks on the inputs and the loop are two methods (`RunActualCashflow`, `ActualRows`). The loop body is its own method, mirroring the source's statement order, including the in-place cut of prepayment and amortization. The loop body is proved equal to a per-period step function. The run is proved to satisfy a per-period relation (`IsScheduledRun`, `IsActualRun`). The properties of that relation are lemmas: non-negativity, mass balance, loss and recovery bounds, the closed form, payoff, and an equivalence — an actual run with zero curves reproduces the scheduled run.

Files: `wrappers.dfy`, `powers.dfy`, `scheduled_payments.dfy`, `payment_models.dfy`, `cashflows.dfy`, `loans.dfy`. The modules follow the Python files. `Cashflows` holds the runners. `Loans` holds the `Loan` class of `cashflows.py` and its adapters.

## Model

| member | source | states |
|---|---|---|
| ScheduledPayments.AnnuityFactor | src/bma_standard_formulas/scheduled_payments.py:699-701 | `AF = r/(1-(1+r)^-M)`. For r > 0 it lies in `(r, 1+r]`, and it equals `1+r` when M = 1. |
| ScheduledPayments.SchBalanceFactorFixedRate | src/bma_standard_formulas/scheduled_payments.py:83-99 | Errors exactly when original_term <= 0, remaining_term < 0, remaining_term > original_term or coupon < 0, in that order. Otherwise the result lies in [0, 1]. It is 0 with the maturity warning at M = 0, is M/T with the straight-line warning at coupon 0, is 1 at M = T, and is positive with no warning for a positive coupon. |
| ScheduledPayments.FixedRateIsBalanceRatio | src/bma_standard_formulas/scheduled_payments.py:97-99 | For a positive coupon the balance factor is the closed-form ratio `[1-(1+r)^-M]/[1-(1+r)^-T]`. |
| ScheduledPayments.BalanceRatioBounds | src/bma_standard_formulas/scheduled_payments.py:97-99 | The closed-form ratio lies in [0, 1]. It is 1 at M = T, 0 at M = 0, and positive for M >= 1. |
| ScheduledPayments.BalanceRatioStep | src/bma_standard_formulas/scheduled_payments.py:361-364 | One month of amortization takes BAL(M) to BAL(M-1): `BAL(M-1) = BAL(M)·(1-(AF(M)-r))`. |
| ScheduledPayments.LevelPayment | src/bma_standard_formulas/scheduled_payments.py:211-220 | The payment stays level over the loan's life: `BAL(M)·AF(M) = AF(T)`. |
| ScheduledPayments.SchPaymentFactor | src/bma_standard_formulas/scheduled_payments.py:689-702 | Errors exactly when remaining_term < 0 or coupon < 0. It is 0 with a warning at M = 0, is balance/M with a warning at coupon 0, and is balance·(1+r) at M = 1. At a positive coupon with months left it issues no warning. |
| ScheduledPayments.PaymentFactorLinear | src/bma_standard_formulas/scheduled_payments.py:689-702 | The payment is linear in the beginning balance factor. |
| ScheduledPayments.PaymentCoversInterest | src/bma_standard_formulas/scheduled_payments.py:699-702 | For a positive balance and coupon, the payment exceeds the month's interest and is at most balance·(1+r). |
| ScheduledPayments.AmFactor | src/bma_standard_formulas/scheduled_payments.py:778-786 | Same errors as the payment factor. It is 0 at M = 0, 1 at M = 1, and in (0, 1] for M >= 1. It equals `sch_payment_factor(c, M, 1) - c/1200` with the same warnings, so it does not depend on the beginning balance. At a positive coupon with months left it issues no warning. |
| ScheduledPayments.SchPaymentFactorFixedRate | src/bma_standard_formulas/scheduled_payments.py:211-220 | Defined exactly when 1 <= M <= T and coupon >= 0. It equals the payment on BAL(M), and that is the original annuity factor AF(T). A failure is the error of BAL(M), or else of BAL(M-1). The advisories are those of BAL(M) followed by those of BAL(M-1). |
| ScheduledPayments.PaymentFactorFixedRateAdvisories | src/bma_standard_formulas/scheduled_payments.py:188-220 | Case by case: the errors for T <= 0, M < 0, M > T and a negative coupon. M = 0 fails as a negative remaining term from the BAL(M-1) call. The advisories are the maturity advisory at M = 1, and a straight-line advisory from each call with months left when the coupon is 0. |
| ScheduledPayments.PaymentDecomposition | src/bma_standard_formulas/scheduled_payments.py:211-220 | Principal BAL(M)-BAL(M-1) plus interest BAL(M)·c/1200 equals both the payment on BAL(M) and AF(T). |
| ScheduledPayments.SchAmFactorFixedRate | src/bma_standard_formulas/scheduled_payments.py:361-364 | Defined exactly when 1 <= M <= T and coupon >= 0. It equals am_factor(·, c, M). A failure is the error of BAL(M-1), computed first, or else of BAL(M). The advisories are those of BAL(M-1) followed by those of BAL(M). |
| ScheduledPayments.AmFactorFixedRateAdvisories | src/bma_standard_formulas/scheduled_payments.py:348-364 | Case by case: the errors for T <= 0, M <= 0, M > T+1 and a negative coupon. M = T+1 with a non-negative coupon fails on the BAL(M) call. The advisories are the maturity advisory at M = 1, and a straight-line advisory from each call with months left when the coupon is 0. |
| ScheduledPayments.AmortizationIsSurvivalComplement | src/bma_standard_formulas/scheduled_payments.py:361-364 | BAL(M) is never 0 for M >= 1, and `1 - BAL(M-1)/BAL(M)` is am_factor(1, c, M). |
| ScheduledPayments.FixedRateStep | src/bma_standard_formulas/scheduled_payments.py:361-364 | `BAL(M-1) = BAL(M)·(1 - am_factor(c, M))` on every branch, including the straight-line coupon 0. |
| ScheduledPayments.ExtendedRates | src/bma_standard_formulas/scheduled_payments.py:875-899 | The rate vector: length n+1, rates[0] = 0, every rate taken from the coupon vector. A single coupon is broadcast. A vector at least n long is used as a prefix. A shorter vector is back-filled with its oldest rate for `max(0, history - len)` periods, followed by the vector, then forward-filled with its newest rate. |
| ScheduledPayments.SchPaymentFactorVector | src/bma_standard_formulas/scheduled_payments.py:851-910 | Returns `([0],[0.0],[0.0])` for num_periods <= 0. Otherwise it errors exactly on a non-positive term, an empty vector or a remaining term outside [0, T], in that order. periods = 0..n, rates[0] = pf[0] = 0. The rates are the extended vector, with a warning exactly when the back-fill count is positive. pf[k] is the annuity factor at M = T-k+1 (1/M at rate 0). |
| ScheduledPayments.PeriodFactors | src/bma_standard_formulas/scheduled_payments.py:905-908 | `[0]` followed by one factor per age k >= 1: the annuity factor at that age's rate with M = T-k+1, or 1/M at rate 0. |
| ScheduledPayments.PeriodAnnuityIsPaymentFactor | src/bma_standard_formulas/scheduled_payments.py:905-906 | At any coupon >= 0 the vectorized factor `where(r == 0, 1/M, AF)` is the single-period `sch_payment_factor(c, M, 1)`. |
| ScheduledPayments.VectorFactorIsPaymentFactor | src/bma_standard_formulas/scheduled_payments.py:901-908 | Element k of the vector at a non-negative rate equals `sch_payment_factor(rates[k], T-k+1, 1)`. |
| ScheduledPayments.Trajectory | src/bma_standard_formulas/scheduled_payments.py:1018-1023 | am[k] = pf[k] - rates[k]/1200, bal[0] = 1, and `bal[k] = bal[k-1]·(1-am[k])`: the cumulative product of `1-am`. |
| ScheduledPayments.SurvivalBalances | src/bma_standard_formulas/scheduled_payments.py:1021-1023 | The cumulative product of `1 - am` has the same length, starts at 1, and satisfies `bal[k] = bal[k-1]·(1-am[k])`. |
| ScheduledPayments.SurvivalOverWindow | src/bma_standard_formulas/scheduled_payments.py:1021-1023 | Along any path with `bal[k] = bal[k-1]·(1-am[k])` at every age k of the window, the balance n ages after age a is bal[a] times the product of `1-am[k]` over ages a+1 .. a+n. |
| ScheduledPayments.RatioOverWindow | src/bma_standard_formulas/scheduled_payments.py:1021-1023 | The same as a ratio: when bal[a] != 0, `bal[a+n]/bal[a]` is the window's survival product. |
| ScheduledPayments.TrajectoryWindowRatio | src/bma_standard_formulas/scheduled_payments.py:1018-1023 | On the balance trajectory of any payment-factor vector, the ratio of the balance factors n ages apart is the survival product of the ages between them. |
| ScheduledPayments.SchBalanceFactors | src/bma_standard_formulas/scheduled_payments.py:1013-1025 | Has the same errors and warnings as the payment-factor vector. On success it is that vector's balance trajectory. |
| ScheduledPayments.SchEndingBalanceFactor | src/bma_standard_formulas/scheduled_payments.py:1052-1059 | The last element of the trajectory over `T - M` periods. It is 1 with no warning when no period has elapsed. Otherwise its warnings are the trajectory's back-fill warning (present exactly when 1 < len(cv) < T - M), and its error is the trajectory's error. |
| ScheduledPayments.EndingBalanceFactorErrors | src/bma_standard_formulas/scheduled_payments.py:1052-1059 | Once a period has elapsed, the error is a non-positive original term first, then an empty coupon vector, then a remaining term out of range. |
| ScheduledPayments.ConstantCouponTrajectory | src/bma_standard_formulas/scheduled_payments.py:1013-1023 | With every coupon equal to c >= 0, the trajectory at every age n equals the closed form BAL(c, T, T-n), including 0 at age T. |
| ScheduledPayments.ConstantCouponBalanceAt | src/bma_standard_formulas/scheduled_payments.py:1013-1023 | With every coupon equal to c >= 0, the trajectory over N periods has N+1 elements, and its element at any age n <= N is BAL(c, T, T-n). |
| ScheduledPayments.TrajectoryClosedForm | src/bma_standard_formulas/scheduled_payments.py:1018-1023 | Any vector whose amortization factors match am_factor at every age telescopes to the closed form. |
| ScheduledPayments.ClosedFormAge | src/bma_standard_formulas/scheduled_payments.py:1018-1023 | The induction step of the telescoping argument at age n. |
| ScheduledPayments.ConstantCouponAmFactor | src/bma_standard_formulas/scheduled_payments.py:901-908 | With a constant coupon, `pf[n] - rates[n]/1200` is the fixed-rate am_factor at M = T-n+1. |
| ScheduledPayments.ConstantCouponEndingBalance | src/bma_standard_formulas/scheduled_payments.py:1052-1059 | With a constant coupon, the ending balance factor always exists and equals BAL(c, T, M). |
| PaymentModels.SmmToCpr | src/bma_standard_formulas/payment_models.py:112 | SMM 0 gives CPR 0 and SMM 1 gives 100. An SMM in [0, 1] gives a CPR in [0, 100]. |
| PaymentModels.SmmToCprMonotone | src/bma_standard_formulas/payment_models.py:112 | CPR does not decrease with SMM on [0, 1]. |
| PaymentModels.PsaToCpr | src/bma_standard_formulas/payment_models.py:354-356 | 0 for month <= 0. Never above 100 and non-negative for PSA >= 0. Below the cap it is `PSA/100·0.2·min(month, 30)`. |
| PaymentModels.PsaToCprMonotone | src/bma_standard_formulas/payment_models.py:354-356 | For PSA >= 0 the CPR does not decrease with month. |
| PaymentModels.PsaToCprPlateau | src/bma_standard_formulas/payment_models.py:354-356 | From month 30 on, the CPR equals its month-30 value. |
| PaymentModels.CprToPsa | src/bma_standard_formulas/payment_models.py:388-393 | 0 for month <= 0, otherwise `psa·min(month, 30) = cpr·500`. |
| PaymentModels.PsaRoundTrip | src/bma_standard_formulas/payment_models.py:354-393 | cpr_to_psa(psa_to_cpr(psa, m), m) = psa for m >= 1 wherever the 100 cap is not hit. |
| PaymentModels.CprRoundTrip | src/bma_standard_formulas/payment_models.py:354-393 | psa_to_cpr(cpr_to_psa(cpr, m), m) = cpr for m >= 1 and cpr <= 100. |
| PaymentModels.GeneratePsaCurve | src/bma_standard_formulas/payment_models.py:483-486 | Fails exactly when term < 0, because the source then writes into an empty array. Otherwise it has length term+1, curve[0] = 0, and curve[n] = psa_to_cpr(psa, n). |
| PaymentModels.AbsToSmmAsWritten | src/bma_standard_formulas/payment_models.py:1203-1208 | The rule as written: 0 for month <= 0, ABS at month 1, and 100 once `100 - ABS·(month-1) <= 0`. |
| PaymentModels.AbsToSmmAsWrittenExceedsCap | src/bma_standard_formulas/payment_models.py:1205-1208 | ABS 3 at month 34 gives 300, above the 100 that month 35 gives (see Findings). |
| PaymentModels.AbsToSmm | src/bma_standard_formulas/payment_models.py:1203-1208 | The rule capped at 100. It keeps the three branches, stays in [0, 100] for ABS >= 0, and equals min(as-written, 100). |
| PaymentModels.AbsToSmmMonotone | src/bma_standard_formulas/payment_models.py:1203-1208 | For ABS >= 0 the capped SMM does not decrease with month. |
| PaymentModels.SdaBaseCdrContinuous | src/bma_standard_formulas/payment_models.py:1329-1337 | The base SDA curve is continuous at months 30, 60 and 120: 0.60 at 30/31 and 60, the down-slope's first step 0.60 - 0.0095 at 61, and 0.03 at 120/121. |
| PaymentModels.SdaBaseCdrShape | src/bma_standard_formulas/payment_models.py:1329-1337 | The base curve rises up to month 60, falls from month 30 on, and stays in [0, 0.60] for month >= 0. |
| PaymentModels.SdaToCdr | src/bma_standard_formulas/payment_models.py:1325-1338 | 0 in the liquidation tail: term given, mtl > 0 and month > max(0, term-mtl). Otherwise the base CDR scaled by sda/100. |
| PaymentModels.GenerateSdaCurve | src/bma_standard_formulas/payment_models.py:1345-1355 | Length term+1 (empty for term < 0), and element i is sda_to_cdr(sda, i, term, mtl). Element 0 is 0, and the last mtl months are 0. |
| PaymentModels.SmmFromFactors | src/bma_standard_formulas/payment_models.py:84-89 | With a one-month window it fails exactly on a division by zero (sch_beg, act_beg or sch_end is 0). Otherwise `(1-smm)·act_beg·sch_end/sch_beg = act_end`. smm lies in [0, 1] when act_end is between 0 and the scheduled factor, and is 0 when they are equal. |
| PaymentModels.PyIndex | src/bma_standard_formulas/payment_models.py:256-257 | Python indexing of the survival factors: negative indices count from the end, and anything else is an IndexError. |
| PaymentModels.ScheduledWindow | src/bma_standard_formulas/payment_models.py:234-258 | For a single-rate vector, the window's scheduled factors are the closed forms at T-age and T-age-n, with both closed forms' warnings. It fails exactly when either closed form fails, with the first failure's error. For any other vector, the factors are the entries at age and age+n of the trajectory `sch_balance_factors(cv, T, T-age-n)` over T periods, with its warnings. It fails exactly when that trajectory fails (with its error) or when either Python index is out of range. |
| PaymentModels.FloatingWindowSurvival | src/bma_standard_formulas/payment_models.py:249-258 | On the floating path, with sch_beg != 0, `sch_end/sch_beg` is the product of `1-am[k]` over the ages of the window. |
| PaymentModels.ProjectActEndFactor | src/bma_standard_formulas/payment_models.py:234-262 | Defined exactly when the window exists and sch_beg != 0. It fails with the window's error, or with a division by zero. It is then `act_beg·(sch_end/sch_beg)·∏(1-smm_i)`, carrying the window's warnings. |
| PaymentModels.ZeroSmmIsScheduled | src/bma_standard_formulas/payment_models.py:259-262 | All-zero SMM gives the scheduled factor `act_beg·sch_end/sch_beg`. |
| PaymentModels.FullPrepaymentIsZero | src/bma_standard_formulas/payment_models.py:259-262 | An SMM of 1 in any month gives 0. |
| PaymentModels.SmmProjectionRoundTrip | src/bma_standard_formulas/payment_models.py:84-89 | Projecting act_beg by the SMM recovered from (act_beg, act_end, sch_beg, sch_end) reproduces act_end. |
| PaymentModels.ZeroSmmFromOrigination | src/bma_standard_formulas/payment_models.py:234-262 | From origination with no prepayment, a fixed-rate pool's projected factor is BAL(c, T, T-n). |
| Cashflows.RunAnnuityIsAnnuityFactor | src/bma_standard_formulas/cashflows.py:144-150 | The runner's annuity factor, with its `(1+r)^-M < 1` guard, is the B.1 annuity factor. The fallback branch is never taken. |
| Cashflows.ScheduledStep | src/bma_standard_formulas/cashflows.py:140-168 | One scheduled period: beginning = previous ending, billed = beginning·coupon/12, interest + principal = payment, ending = beginning - principal, pool factor = amortized balance fraction, survival 1 or 0. |
| Cashflows.ScheduledPeriod | src/bma_standard_formulas/cashflows.py:140-168 | The loop body, in the source's order, computes exactly ScheduledStep. |
| Cashflows.ScheduledColumns | src/bma_standard_formulas/cashflows.py:16-39 | The rows become the eleven columns, with period = 0..n-1, and each row can be read back from them. |
| Cashflows.RunScheduledCashflow | src/bma_standard_formulas/cashflows.py:85-182 | Fails only on a negative remaining term: allocation fails below -1, and writing period 0 fails at -1. Otherwise the result is the scheduled run: remaining_term+1 periods, ending[0] = current balance, each later period rolled forward with `remaining_term-i+1` payments left. |
| Cashflows.ScheduledStepFromBalance | src/bma_standard_formulas/cashflows.py:144-161 | For a non-negative balance: interest paid = billed and 0 <= ending <= beginning. The whole balance goes in the last payment, and at a zero coupon. For a positive coupon the payment is sch_payment_factor and the ending balance is `beginning·(1-am_factor)`. |
| Cashflows.ScheduledEndingNonNegative | src/bma_standard_formulas/cashflows.py:152-161 | No ending balance of a run from a non-negative balance is negative. |
| Cashflows.ScheduledRunBalances | src/bma_standard_formulas/cashflows.py:139-161 | For every period i >= 1, with a non-negative balance: ending >= 0, interest paid = billed = ending[i-1]·coupon/12, principal = ending[i-1]-ending[i] >= 0, and ending[i] <= beginning[i] = ending[i-1]. |
| Cashflows.PrincipalTelescopes | src/bma_standard_formulas/cashflows.py:152-161 | When each period's principal is the drop in the balance, the principal paid through period k is `ending[0] - ending[k]`. |
| Cashflows.ScheduledPrincipalSums | src/bma_standard_formulas/cashflows.py:139-161 | From a non-negative current balance, the principal paid through period k is the current balance less ending[k]. Over a remaining term of at least one period, the principal paid sums to the whole current balance. |
| Cashflows.ScheduledRunPaysOff | src/bma_standard_formulas/cashflows.py:141-161 | The ending balance in the last period is 0. |
| Cashflows.ScheduledRunZeroRate | src/bma_standard_formulas/cashflows.py:156-161 | At a zero or negative coupon the whole balance is paid in period 1, and every later ending balance is 0. |
| Cashflows.ScheduledRunClosedForm | src/bma_standard_formulas/cashflows.py:139-161 | At a positive coupon, ending[i] = current balance · BAL(100·coupon, M, M-i) with M = remaining_term: the closed form of section B.1 over the remaining term. |
| Cashflows.ScheduledClosedFormAt | src/bma_standard_formulas/cashflows.py:139-161 | The induction over periods behind the closed form. |
| Cashflows.EdgePad | src/bma_standard_formulas/cashflows.py:221-223 | Edge padding to n periods: length n, with element k the curve's k-th value or its last value. |
| Cashflows.ReadableIffInRange | src/bma_standard_formulas/cashflows.py:227-265 | The ending-balance column is readable for n periods (`ScheduleReadable`) exactly when every read the run makes is in range. Those reads are entry 0, then in period j+1 entry j, and entry j+1 when entry j is positive. |
| Cashflows.ScheduleRead | src/bma_standard_formulas/cashflows.py:208-231 | The column as the run reads it. It has at least n entries and keeps every entry of the column. It is the column itself when that has n entries. |
| Cashflows.ScheduleReadSurvival | src/bma_standard_formulas/cashflows.py:230-233 | The entry filled in for a column one short never reaches a survival ratio: each period's ratio is the one the column itself gives. |
| Cashflows.ActualTermsOf | src/bma_standard_formulas/cashflows.py:200-227 | The run's inputs: one period per scheduled period, curves padded or truncated to that count, sch_am = the scheduled ending balances as the run reads them, monthly rate = coupon/12. |
| Cashflows.CapUnscheduled | src/bma_standard_formulas/cashflows.py:243-250 | Without excess, or with a non-positive prior balance, nothing changes. A non-negative prepayment is cut to between 0 and itself. Amortization is cut only after prepayment reaches 0, and stays between 0 and max(act_am, 0). When the cap applies, the three flows sum to the prior balance, or both cuts are 0 and the default alone exceeds it. |
| Cashflows.PerformingStep | src/bma_standard_formulas/cashflows.py:230-253 | The performing balance is >= 0. mdr is 0 in the liquidation window `i >= max(0, n-mtl)` with mtl > 0, and the curve value otherwise. new_def = perf[i-1]·mdr. |
| Cashflows.RecoveryStep | src/bma_standard_formulas/cashflows.py:255-283 | fcl >= 0. am_def = 0 without P&I advancing. adb, loss and recovery are 0 before the lag. From the lag on, loss <= adb and loss + recovery = adb. |
| Cashflows.ActualStep | src/bma_standard_formulas/cashflows.py:230-283 | One actual period: the facts of both stages, plus act_int = exp_int - lost_int. |
| Cashflows.PerformingPeriod | src/bma_standard_formulas/cashflows.py:230-253 | The loop's first half, with the in-place cuts of vol_prepay and act_am, computes exactly PerformingStep. |
| Cashflows.RecoveryPeriod | src/bma_standard_formulas/cashflows.py:255-283 | The loop's second half computes exactly RecoveryStep. |
| Cashflows.ActualPeriod | src/bma_standard_formulas/cashflows.py:229-283 | The whole loop body computes exactly ActualStep. |
| Cashflows.ActualRowsOf | src/bma_standard_formulas/cashflows.py:41-81 | Reads each period's record back from the columns. |
| Cashflows.ActualColumns | src/bma_standard_formulas/cashflows.py:285-301 | The rows become the columns, and reading them back gives the rows. |
| Cashflows.ActualRows | src/bma_standard_formulas/cashflows.py:226-283 | Starting from the schedule's first balance and the first MDR, the loop fills each later period from the period before it and from the row `lag` periods back. The rows it returns are exactly an actual run's rows (IsActualRows). |
| Cashflows.RunActualCashflow | src/bma_standard_formulas/cashflows.py:185-301 | Succeeds exactly when there is a period, every curve is non-empty, the ending balances are readable (at least one per period, or one short when the last but one is not positive), and the lag is non-negative (or there is one period). With a period, an empty curve is a padding error. No period is an index error. With every curve non-empty, every failure (an unreadable schedule, or a negative lag over two or more periods) is an index error. On success the result is the actual run over those terms. |
| Cashflows.DefaultedBalance | src/bma_standard_formulas/cashflows.py:256-265 | The amortized default balance is the raw default without P&I advancing or with no lag. It is 0 when nothing defaulted. When P&I is advanced it scales the default by the schedule's survival since the default month: `adb·sch[d-1] = defaulted·sch[i-1]`. |
| Cashflows.DefaultedBalanceBounded | src/bma_standard_formulas/cashflows.py:255-265 | Over a non-increasing schedule the defaulted balance is between 0 and the default. Without P&I advancing it is the raw default. |
| Cashflows.PerformingConserves | src/bma_standard_formulas/cashflows.py:239-253 | Mass balance of one period: perf[i-1] = new_def + vol_prepay + act_am + perf[i], each non-negative. |
| Cashflows.ActualRunConserves | src/bma_standard_formulas/cashflows.py:229-253 | Mass balance in every period of a run, with rates in [0, 1] and a non-increasing, non-negative schedule. |
| Cashflows.ActualRunBounds | src/bma_standard_formulas/cashflows.py:227-283 | perf[0] = sched ending[0], and fcl >= 0 throughout. For i >= 1: perf >= 0, the liquidation-window mdr rule, new_def = perf[i-1]·mdr, am_def = 0 without P&I advancing, and act_int = exp_int - lost_int. Also `exp_int = (perf[i-1]+fcl[i-1])·rate`, `lost_int = (new_def+fcl[i-1])·rate`, and `fcl = max(new_def+fcl[i-1]-adb-am_def, 0)`. |
| Cashflows.ActualRunLagPipeline | src/bma_standard_formulas/cashflows.py:255-279 | adb, loss and recovery are 0 before the lag. From the lag on, adb derives from new_def[i-lag], prin_loss = min(new_def[d]·sev[d], adb), and loss + recovery = adb. |
| Cashflows.ZeroCurveStep | src/bma_standard_formulas/cashflows.py:229-283 | With zero curves on the scheduled balance, a period does this: it follows the schedule, defaults, prepays and forecloses nothing, amortizes sch[i-1]-sch[i], and expects interest sch[i-1]·rate. |
| Cashflows.ZeroCurveAt | src/bma_standard_formulas/cashflows.py:229-283 | The induction over periods for zero curves. |
| Cashflows.ZeroCurvesReproduceSchedule | src/bma_standard_formulas/cashflows.py:85-283 | With all-zero SMM and MDR curves and the scheduled coupon: perf_bal = scheduled ending, new_def, vol_prepay, fcl and lost_int are 0, act_am = principal_paid, and exp_int = interest_paid in every period. |
| Loans.NewLoan | src/bma_standard_formulas/cashflows.py:374-414 | Construction checks, in the source's order: original term <= 0, remaining term < 0, original balance < 0, remaining > original term, current > original balance, rate cap < rate floor — each with its own error. It succeeds exactly for a valid loan and then holds the given fields. |
| Loans.IsFixedRate | src/bma_standard_formulas/cashflows.py:434-439 | A loan is fixed-rate with no index, an empty index or an all-zero index. So it is floating exactly when its index has a non-zero rate. |
| Loans.Age | src/bma_standard_formulas/cashflows.py:417-419 | age = T - M, within [0, T]. |
| Loans.ExtendedIndex | src/bma_standard_formulas/cashflows.py:441-457 | Length T. Zeros for a fixed-rate loan. The first T index values when the index is long enough. |
| Loans.ShortIndexExtendedBackwards | src/bma_standard_formulas/cashflows.py:454-457 | A short index ends the extended index, and every earlier period repeats the index's first value. |
| Loans.CouponVector | src/bma_standard_formulas/cashflows.py:459-478 | Empty for n <= 0. n copies of the margin at a fixed rate. Otherwise the extended index from the age on plus the margin, of length min(n, M). |
| Loans.CouponPercent | src/bma_standard_formulas/cashflows.py:422-432 | The margin at a fixed rate. For a floating loan it fails exactly at maturity, where the index has no entry at its age. |
| Loans.CouponPercentStartsCouponVector | src/bma_standard_formulas/cashflows.py:422-478 | Before maturity the current coupon is the first element of the coupon vector, and the vector has M elements. |
| Loans.CouponDecimalForCashflow | src/bma_standard_formulas/cashflows.py:480-493 | The coupon vector over the remaining term in decimals: c[k]·100 = cv[k]. |
| Loans.ServicingFeeDecimal | src/bma_standard_formulas/cashflows.py:495-502 | fee·100 = servicing fee. |
| Loans.RunnerCoupon | src/bma_standard_formulas/cashflows.py:526-529 | The runners' coupon: the current coupon in decimals before maturity, and 0 at maturity. |
| Loans.ScheduledCashflowFromLoan | src/bma_standard_formulas/cashflows.py:513-539 | The loan's scheduled run at its runner coupon, over its remaining term. It never fails for a valid loan. |
| Loans.ActualCashflowFromLoan | src/bma_standard_formulas/cashflows.py:542-582 | The actual run at the runner coupon and the loan's P&I flag. It succeeds under the runner's condition, readable ending balances included, and fails with the runner's error kinds: a padding error for an empty curve, an index error for no period, and an index error for every failure once the curves are non-empty. |
| Loans.FixedRateLoanSchedule | src/bma_standard_formulas/cashflows.py:513-539 | A fixed-rate loan at a positive margin follows current balance · BAL(margin, M, M-i) and is paid off at maturity. |

## Left out

- Fractional roots. `cpr_to_smm`, `cdr_to_mdr`, their vector forms, `psa_to_smm`, `generate_smm_curve_from_psa`, `smm_from_factors` with a window longer than one month, `historical_smm*`/`historical_cpr*` and the pool aggregates all need a 1/12 or 1/N power, which has no exact counterpart over the reals as modelled.
- `historical_psa` and `historical_psa_pool`: they are root searches by a numerical solver.
- `historical_abs`: its guard is a floating-point forward-error threshold.
- `compare_arrays`: numpy tolerance checks.
- The stubs `smm_to_abs` and `generate_smm_curve_from_abs`: they have no behaviour to model.
- Vector variants of scalar conversions (`smm_to_cpr_vector` and the like): they are elementwise maps of the scalar rules.
- Floating-point rounding, `inf` and `nan`. The model is exact.
- Loan's date fields (origination, as-of, maturity, first payment) and `index_type`. The date check swallows its own error, so it never rejects a loan.
- Loan's check that the rate index is finite and numeric: every `real` is finite.
- Loan's accrued interest and the runner's servicing fee, `net_rate` and original term are passed through but never change a result. The model keeps them as ignored parameters.
- The runners' parallel numpy arrays are one array of per-period records here. Each record is converted to the source's column layout at the end. The values are the same, but aliasing between the columns is not modelled.
- ScheduledPayments.SchPaymentFactorVector: requires num_periods <= original_term when the inputs are valid. Past maturity the source divides by M = 0 and yields an infinite factor.
- ScheduledPayments.SchPaymentFactorVector: requires every coupon above -1200%, because the model's annuity algebra needs 1 + r > 0. The source is defined there: `np.power(1.0 + r, -M)` with an integer exponent (scheduled_payments.py:906) is finite for a negative base. At exactly -1200% it gives `(0.0)^-M = inf` and a factor of +0.0. Below -1200% it gives finite factors, and `-inf` only where `(1+r)^-M = 1` (-2400% with an even M).
- ScheduledPayments.SchBalanceFactors: inherits both requirements of the payment-factor vector.
- ScheduledPayments.SchEndingBalanceFactor: inherits the coupon requirement. Its period count T - M never passes maturity.
- Default arguments: the model has none. Every defaulted Python argument of a modelled function is a required parameter, except `window_months`, which is fixed. The complete list:
  - `severity_lag=12`, `coupon=0.08`, `pi_advanced=True` and `months_to_liquidation=12` of the actual runner and its loan adapter (cashflows.py:190-193, 548-549);
  - `accrued_interest=0.0` and `servicing_fee=0.0` of `run_bma_scheduled_cashflow` (cashflows.py:91-92);
  - the `Loan` field defaults, all required by `NewLoan`: `rate_index=None`, `servicing_fee=0.0`, `original_term=0`, `remaining_term=0`, `accrued_interest=0.0`, `pi_advanced=True`, `rate_cap=None` and `rate_floor=None` (cashflows.py:360-372);
  - `beginning_balance_factor=1.0` of `sch_payment_factor` (scheduled_payments.py:411);
  - `remaining_term=None`/`num_periods=None` of `sch_payment_factor_vector` and `sch_balance_factors` (scheduled_payments.py:792-793, 916-917);
  - `term=None` and `months_to_liquidation=12` of `sda_to_cdr` (payment_models.py:1301-1302); `term` is an `Option<int>`;
  - `months_to_liquidation=12` of `generate_sda_curve` (payment_models.py:1342).
  - One default is not a parameter: `window_months=1` of `smm_from_factors` (payment_models.py:21) is fixed at 1, because longer windows need a fractional root (see "Fractional roots" above).
- ScheduledPayments.SchPaymentFactorFixedRate: advisories issued before an error are not carried by `Err`. At M = 0, BAL(M) issues the maturity warning before BAL(M-1) raises (scheduled_payments.py:92-93, 85-86, 211-214); the model returns only `Err(NegativeRemainingTerm)`.
- ScheduledPayments.SchAmFactorFixedRate: advisories issued before an error are not carried by `Err`. At M = T+1 with a zero coupon, BAL(T) issues the straight-line warning before BAL(T+1) raises (scheduled_payments.py:95-96, 87-88, 361-362); the model returns only the error.
- PaymentModels.ScheduledWindow: advisories issued before an error are not carried by `Err`. On the single-rate path a maturity or straight-line warning from the beginning-age call is dropped when the ending-age call raises. On the floating-rate path the back-fill warning (scheduled_payments.py:887) is dropped when an index into the trajectory is out of range.
- PaymentModels.ProjectActEndFactor: advisories issued before an error are not carried by `Err`. For example, with act_beg 0.9, no SMM, coupon 8, T = 360 and age 360, the source issues two maturity warnings and then raises ZeroDivisionError (payment_models.py:247-259); the model returns only `Err(DivisionByZero)`.
- PaymentModels.ScheduledWindow: on the floating-rate path it inherits the trajectory's requirement that every coupon be above -1200%. The single-rate path has no such requirement.
- PaymentModels.ProjectActEndFactor: like ScheduledWindow, it requires every coupon above -1200% on the floating-rate path only.
- PaymentModels.ProjectActEndFactor: a zero scheduled beginning factor is an error on both paths. On the floating-rate path numpy would return `inf`/`nan` with a warning instead of raising.
- Cashflows.RunScheduledCashflow: at a zero coupon the source pays the whole balance in period 1 (cashflows.py:156-161). This is not the straight-line schedule of section B.1. The model follows the code, and ScheduledRunZeroRate states it.
- Cashflows.RunAnnuityIsAnnuityFactor: the fallback `1/M` branch of the runner's annuity factor (cashflows.py:149-150) cannot be reached over the reals, because `(1+r)^-M < 1` for r > 0 and M >= 1.
- Cashflows.ActualRunConserves: mass balance is proved only for MDR in [0, 1], SMM >= 0 and a non-negative, non-increasing schedule. Other inputs are not covered.

## Findings

| source | as written | input that shows it | evidently intended | confidence | as-written member | corrected member |
|---|---|---|---|---|---|---|
| src/bma_standard_formulas/payment_models.py:1205-1208 | `100·ABS/(100-ABS·(month-1))` whenever the denominator is positive | ABS = 3, month = 34: the denominator is 1, so the SMM is 300%, while month 35 gives 100% | The SMM never exceeds 100%: all remaining loans prepay once the ratio reaches 100 | not executed | PaymentModels.AbsToSmmAsWritten, PaymentModels.AbsToSmmAsWrittenExceedsCap | PaymentModels.AbsToSmm |
