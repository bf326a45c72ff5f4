/** Failure-compatible results, optional values and the advisory warnings
    that the formulas emit for unusual but handled inputs. */
module Wrappers {

  datatype Option<+T> = None | Some(value: T)

  /** Why a computation was rejected: one constructor per domain check. */
  datatype Error =
    | NonPositiveOriginalTerm
    | NegativeRemainingTerm
    | RemainingTermExceedsOriginal
    | RemainingTermOutOfRange
    | NegativeCoupon
    | EmptyCouponVector
    | NegativeOriginalBalance
    | CurrentBalanceExceedsOriginal
    | RateCapBelowFloor
    | NegativeArrayLength
    | IndexOutOfRange
    | DivisionByZero
    | EmptyCurve

  datatype Result<+T> = Ok(value: T) | Err(error: Error) {
    predicate IsFailure() { Err? }

    function PropagateFailure<U>(): Result<U>
      requires Err?
    {
      Err(error)
    }

    function Extract(): T
      requires Ok?
    {
      value
    }
  }

  /** An advisory that does not stop the computation. */
  datatype Warning =
    | MaturityBalance              // remaining term is zero
    | StraightLine                 // coupon is zero
    | ExtendedHistory(count: nat)  // oldest rate repeated backwards `count` times

  /** A value together with the advisories raised while computing it. */
  datatype Advised<+T> = Advised(value: T, warnings: seq<Warning>)
}
