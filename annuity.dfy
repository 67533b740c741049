/** Closed-form annuity arithmetic used for pot sizing: ordinary (in arrears) and
    annuity-due (in advance) factors, their partial-period versions, and two annual
    payment formulas that count on one state pension in years 4-5 and two from year 6.
    A rate r is a real growth rate per year; one year's discount is v = 1/(1+r). */
module Annuity {
  import opened Powers
  import opened Results

  /** The annual state pension the payment formulas are based on (the 2026 rate). */
  const StatePension: real := 12500.0

  /** The two ValueErrors of the partial-period factors. */
  datatype AnnuityError =
    | StartNotBeforeEnd   // the first period is not before the last
    | NegativePeriod      // a period number below zero

  /** The real rate of growth once inflation is taken out. */
  function RealRate(growth: real, inflation: real): (r: real)
    requires 1.0 + inflation != 0.0
    ensures (1.0 + r) * (1.0 + inflation) == 1.0 + growth
    ensures growth == inflation ==> r == 0.0
  {
    (1.0 + growth) / (1.0 + inflation) - 1.0
  }

  /** Present value of 1 paid at the end of each of n years. */
  function AnnuityFactor(r: real, n: int): real
    requires 1.0 + r != 0.0
  {
    if r == 0.0 then n as real else (1.0 - Power(1.0 + r, -n)) / r
  }

  /** Present value of 1 paid at the start of each of n years. */
  function AnnuityDueFactor(r: real, n: int): real
    requires 1.0 + r != 0.0
  {
    if r == 0.0 then n as real else (1.0 - Power(1.0 + r, -n)) * (1.0 + r) / r
  }

  /** Present value of 1 paid at the end of each of the years nStart..nEnd. */
  function PeriodAnnuityFactor(r: real, nStart: int, nEnd: int): (res: Result<real, AnnuityError>)
    requires nStart < nEnd && nStart >= 0 ==> 1.0 + r != 0.0
    ensures res.Failure? <==> nStart >= nEnd || nStart < 0
    ensures nStart >= nEnd ==> res == Failure(StartNotBeforeEnd)
    ensures nStart < nEnd && nStart < 0 ==> res == Failure(NegativePeriod)
  {
    if nStart >= nEnd then Failure(StartNotBeforeEnd)
    else if nStart < 0 || nEnd < 0 then Failure(NegativePeriod)
    else if nStart == 1 then Success(AnnuityFactor(r, nEnd))
    else Success(AnnuityFactor(r, nEnd) - AnnuityFactor(r, nStart - 1))
  }

  /** Present value of 1 paid at the start of each of the years nStart..nEnd. */
  function PeriodAnnuityDueFactor(r: real, nStart: int, nEnd: int): (res: Result<real, AnnuityError>)
    requires nStart < nEnd && nStart >= 0 ==> 1.0 + r != 0.0
    ensures res.Failure? <==> nStart >= nEnd || nStart < 0
    ensures nStart >= nEnd ==> res == Failure(StartNotBeforeEnd)
    ensures nStart < nEnd && nStart < 0 ==> res == Failure(NegativePeriod)
  {
    if nStart >= nEnd then Failure(StartNotBeforeEnd)
    else if nStart < 0 || nEnd < 0 then Failure(NegativePeriod)
    else if nStart == 1 then Success(AnnuityDueFactor(r, nEnd))
    else
      PowerSign(1.0 + r, nStart - 1);
      Success(AnnuityDueFactor(r, nEnd - nStart + 1) / Power(1.0 + r, nStart - 1))
  }

  /** The level annual payment, made at the end of each of nYears years, that the pot
      plus the state pensions can fund. */
  function AnnualPaymentInArrears(r: real, nYears: int, presentValue: real): (res: Result<real, AnnuityError>)
    requires r > -1.0
    ensures res.Failure? <==> nYears <= 6
    ensures res.Failure? ==> res.error == StartNotBeforeEnd
  {
    // annual_payment_in_arrears also computes the factor for years 1..3 but never uses it.
    var af45 := PeriodAnnuityFactor(r, 4, 5);
    var af6End := PeriodAnnuityFactor(r, 6, nYears);
    if af6End.Failure? then Failure(af6End.error)
    else
      AnnuityFactorPositive(r, nYears);
      Success((presentValue + af45.value * StatePension + af6End.value * StatePension * 2.0)
              / AnnuityFactor(r, nYears))
  }

  /** The level annual payment, made at the start of each of nYears years. */
  function AnnualPaymentInAdvance(r: real, nYears: int, presentValue: real): (res: Result<real, AnnuityError>)
    requires r > -1.0
    ensures res.Failure? <==> nYears <= 6
    ensures res.Failure? ==> res.error == StartNotBeforeEnd
  {
    var af13 := PeriodAnnuityDueFactor(r, 1, 3);
    var af45 := PeriodAnnuityDueFactor(r, 4, 5);
    var af6End := PeriodAnnuityDueFactor(r, 6, nYears);
    if af6End.Failure? then Failure(af6End.error)
    else
      DueFactorsPositive(r, nYears);
      Success((presentValue + af45.value * StatePension + af6End.value * StatePension * 2.0)
              / (af13.value + af45.value + af6End.value))
  }

  // ---------------------------------------------------------------------------
  // Reference definition: present values summed one year at a time.

  /** The sum of v^k for k = s..e, v = 1/(1+r): the present value of 1 paid at the
      end of each year s..e (zero when the range is empty; year 0 is paid now). */
  function DiscountSum(r: real, s: int, e: int): real
    requires 1.0 + r != 0.0
    decreases e - s
  {
    if e < s then 0.0 else DiscountSum(r, s, e - 1) + Power(1.0 + r, -e)
  }

  lemma {:induction false} DiscountSumPositive(r: real, s: int, e: int)
    requires r > -1.0
    ensures DiscountSum(r, s, e) >= 0.0
    ensures s <= e ==> DiscountSum(r, s, e) > 0.0
    decreases e - s
  {
    if s <= e {
      DiscountSumPositive(r, s, e - 1);
      PowerSign(1.0 + r, -e);
    }
  }

  /** Two adjoining ranges of years together are the range from the first to the last. */
  lemma {:induction false} DiscountSumSplit(r: real, s: int, m: int, e: int)
    requires 1.0 + r != 0.0
    requires s - 1 <= m <= e
    ensures DiscountSum(r, s, m) + DiscountSum(r, m + 1, e) == DiscountSum(r, s, e)
    decreases e - m
  {
    if m < e {
      DiscountSumSplit(r, s, m, e - 1);
    }
  }

  /** Moving every payment one year earlier is worth one year's growth more. */
  lemma {:induction false} DiscountSumShift(r: real, s: int, e: int)
    requires 1.0 + r != 0.0
    ensures DiscountSum(r, s - 1, e - 1) == Times(DiscountSum(r, s, e), 1.0 + r)
    decreases e - s
  {
    if s <= e {
      DiscountSumShift(r, s, e - 1);
      PowerStepTimes(1.0 + r, -e, -(e - 1));
      ShiftStep(DiscountSum(r, s - 1, e - 1), DiscountSum(r, s, e), DiscountSum(r, s - 1, e - 1 - 1),
                DiscountSum(r, s, e - 1), Power(1.0 + r, -(e - 1)), Power(1.0 + r, -e), 1.0 + r);
    } else {
      assert DiscountSum(r, s - 1, e - 1) == 0.0 && DiscountSum(r, s, e) == 0.0;
    }
  }

  /** Moving every payment k years later discounts the sum by k more years (sk and ek
      are s + k and e + k). */
  lemma {:induction false} DiscountSumScaled(r: real, s: int, e: int, k: nat, sk: int, ek: int)
    requires 1.0 + r != 0.0 && sk == s + k && ek == e + k
    ensures Times(DiscountSum(r, sk, ek), Power(1.0 + r, k)) == DiscountSum(r, s, e)
    decreases e - s
  {
    if s <= e {
      DiscountSumScaled(r, s, e - 1, k, sk, ek - 1);
      PowerAdd(1.0 + r, -ek, k, -e);
      ScaledStep(DiscountSum(r, s, e), DiscountSum(r, s, e - 1), Power(1.0 + r, -e),
                 DiscountSum(r, sk, ek), DiscountSum(r, sk, ek - 1), Power(1.0 + r, -ek), Power(1.0 + r, k));
    } else {
      assert DiscountSum(r, sk, ek) == 0.0 && DiscountSum(r, s, e) == 0.0;
    }
  }

  // ---------------------------------------------------------------------------
  // The whole-term factors.

  /** With no growth a factor just counts the years. */
  lemma FactorsAtZeroRate(n: int)
    ensures AnnuityFactor(0.0, n) == n as real
    ensures AnnuityDueFactor(0.0, n) == n as real
  {
  }

  /** Each further year adds its own discounted payment. */
  lemma AnnuityFactorStep(r: real, n: int)
    requires 1.0 + r != 0.0
    ensures AnnuityFactor(r, n) == AnnuityFactor(r, n - 1) + Power(1.0 + r, -n)
  {
    if r == 0.0 {
      PowerOfOne(-n);
    } else {
      GrowingFactorStep(r, n);
    }
  }

  lemma GrowingFactorStep(r: real, n: int)
    requires 1.0 + r != 0.0 && r != 0.0
    ensures AnnuityFactor(r, n) == AnnuityFactor(r, n - 1) + Power(1.0 + r, -n)
  {
    PowerStep(1.0 + r, -n, -(n - 1));
    DiscountStep(r, n, Power(1.0 + r, -n), Power(1.0 + r, -(n - 1)));
  }

  /** The step above with the two discount factors named: v^n and v^(n-1) = v^n (1+r). */
  lemma DiscountStep(r: real, n: int, vn: real, vn1: real)
    requires 1.0 + r != 0.0 && r != 0.0
    requires vn == Power(1.0 + r, -n) && vn1 == Power(1.0 + r, -(n - 1))
    requires vn1 == vn * (1.0 + r)
    ensures AnnuityFactor(r, n) == AnnuityFactor(r, n - 1) + vn
  {
    StepAlgebra(r, vn, vn1, AnnuityFactor(r, n), AnnuityFactor(r, n - 1));
  }

  /** The closed form agrees with the year-by-year sum over any range of years. */
  lemma {:induction false} AnnuityFactorDifference(r: real, s: int, e: int)
    requires 1.0 + r != 0.0
    requires s <= e + 1
    ensures AnnuityFactor(r, e) - AnnuityFactor(r, s - 1) == DiscountSum(r, s, e)
    decreases e - s
  {
    if e < s {
      assert e == s - 1;
    } else {
      AnnuityFactorDifference(r, s, e - 1);
      AnnuityFactorStep(r, e);
    }
  }

  /** annuity_factor is the present value of n payments in arrears. */
  lemma AnnuityFactorIsDiscountSum(r: real, n: nat)
    requires 1.0 + r != 0.0
    ensures AnnuityFactor(r, n) == DiscountSum(r, 1, n)
  {
    AnnuityFactorDifference(r, 1, n);
    assert Power(1.0 + r, -0) == 1.0;
  }

  /** Paying at the start of each year is worth one year's growth more than paying at
      the end, at every rate (including r = 0, where both are n). */
  lemma AnnuityDueFactorIsShifted(r: real, n: int)
    requires 1.0 + r != 0.0
    ensures AnnuityDueFactor(r, n) == AnnuityFactor(r, n) * (1.0 + r)
  {
    if r != 0.0 {
      MoveDivision(1.0 - Power(1.0 + r, -n), 1.0 + r, r);
    }
  }

  lemma AnnuityFactorPositive(r: real, n: int)
    requires r > -1.0 && n >= 1
    ensures AnnuityFactor(r, n) > 0.0
  {
    AnnuityFactorIsDiscountSum(r, n);
    DiscountSumPositive(r, 1, n);
  }

  lemma AnnuityDueFactorPositive(r: real, n: int)
    requires r > -1.0 && n >= 1
    ensures AnnuityDueFactor(r, n) > 0.0
  {
    AnnuityDueFactorIsShifted(r, n);
    AnnuityFactorPositive(r, n);
    ProductPositive(AnnuityFactor(r, n), 1.0 + r);
  }

  // ---------------------------------------------------------------------------
  // The partial-period factors.

  /** period_annuity_factor, when it succeeds, is the present value of the payments at
      the end of years nStart..nEnd (nStart = 0 adds a payment made now); the special
      case nStart = 1 agrees with the general difference of two annuity factors. */
  lemma PeriodAnnuityFactorValue(r: real, nStart: int, nEnd: int)
    requires 1.0 + r != 0.0
    requires 0 <= nStart < nEnd
    ensures PeriodAnnuityFactor(r, nStart, nEnd)
         == Success(AnnuityFactor(r, nEnd) - AnnuityFactor(r, nStart - 1))
    ensures PeriodAnnuityFactor(r, nStart, nEnd) == Success(DiscountSum(r, nStart, nEnd))
  {
    AnnuityFactorDifference(r, nStart, nEnd);
    FactorsAtZeroRate(0);
    assert Power(1.0 + r, -0) == 1.0;
  }

  /** From the first year, the due factor is the arrears factor grown by one year:
      every payment moves one year earlier. */
  lemma FirstPeriodDueFactorValue(r: real, nEnd: int)
    requires 1.0 + r != 0.0 && 1 < nEnd
    ensures PeriodAnnuityDueFactor(r, 1, nEnd) == Success(AnnuityFactor(r, nEnd) * (1.0 + r))
  {
    AnnuityDueFactorIsShifted(r, nEnd);
  }

  /** A due factor over a non-empty range is positive when the rate is above -100%. */
  lemma PeriodDueFactorPositive(r: real, nStart: int, nEnd: int)
    requires r > -1.0 && 0 <= nStart < nEnd
    ensures PeriodAnnuityDueFactor(r, nStart, nEnd).Success?
    ensures PeriodAnnuityDueFactor(r, nStart, nEnd).value > 0.0
  {
    AnnuityDueFactorPositive(r, nEnd - nStart + 1);
    if nStart != 1 {
      PowerSign(1.0 + r, nStart - 1);
      QuotientPositive(AnnuityDueFactor(r, nEnd - nStart + 1), Power(1.0 + r, nStart - 1));
    }
  }

  lemma DueFactorsPositive(r: real, nYears: int)
    requires r > -1.0 && nYears > 6
    ensures PeriodAnnuityDueFactor(r, 1, 3).value + PeriodAnnuityDueFactor(r, 4, 5).value
          + PeriodAnnuityDueFactor(r, 6, nYears).value > 0.0
  {
    PeriodDueFactorPositive(r, 1, 3);
    PeriodDueFactorPositive(r, 4, 5);
    PeriodDueFactorPositive(r, 6, nYears);
  }

  /** With no growth both partial-period factors count the years nStart..nEnd. */
  lemma PeriodFactorsAtZeroRate(nStart: int, nEnd: int)
    requires 0 <= nStart < nEnd
    ensures PeriodAnnuityFactor(0.0, nStart, nEnd) == Success((nEnd - nStart + 1) as real)
    ensures PeriodAnnuityDueFactor(0.0, nStart, nEnd) == Success((nEnd - nStart + 1) as real)
  {
    PowerOfOne(nStart - 1);
  }

  /** annuity_due_factor is the present value of n payments in advance: one now and
      one at the end of each of the years 1..n-1. */
  lemma AnnuityDueFactorIsDiscountSum(r: real, n: nat)
    requires 1.0 + r != 0.0
    ensures AnnuityDueFactor(r, n) == DiscountSum(r, 0, n - 1)
  {
    AnnuityDueFactorIsShifted(r, n);
    AnnuityFactorIsDiscountSum(r, n);
    DiscountSumShift(r, 1, n);
  }

  /** period_annuity_due_factor, when it succeeds, is the present value of the payments
      at the start of years nStart..nEnd, that is at the end of years nStart-1..nEnd-1;
      the special case nStart = 1 agrees with the general discounted due factor. */
  lemma PeriodDueFactorValue(r: real, nStart: int, nEnd: int)
    requires 1.0 + r != 0.0
    requires 0 <= nStart < nEnd
    ensures PeriodAnnuityDueFactor(r, nStart, nEnd) == Success(DiscountSum(r, nStart - 1, nEnd - 1))
  {
    if nStart == 1 {
      AnnuityDueFactorIsDiscountSum(r, nEnd);
    } else {
      DueQuotient(r, nStart, nEnd);
    }
  }

  /** The general branch of period_annuity_due_factor: the due factor over as many
      years, discounted by nStart-1 years, is the discount sum over nStart-1..nEnd-1. */
  lemma DueQuotient(r: real, nStart: int, nEnd: int)
    requires 1.0 + r != 0.0
    requires 0 <= nStart < nEnd
    ensures Power(1.0 + r, nStart - 1) != 0.0
    ensures AnnuityDueFactor(r, nEnd - nStart + 1) / Power(1.0 + r, nStart - 1)
         == DiscountSum(r, nStart - 1, nEnd - 1)
  {
    var n := nEnd - nStart + 1;
    AnnuityDueFactorIsDiscountSum(r, n);
    PowerSign(1.0 + r, nStart - 1);
    if nStart == 0 {
      DiscountSumShift(r, 0, nEnd);
      assert Power(1.0 + r, nStart - 1) == 1.0 / (1.0 + r) by {
        assert NatPower(1.0 + r, 1) == 1.0 + r;
      }
      DivideByInverse(AnnuityDueFactor(r, n), Power(1.0 + r, nStart - 1), 1.0 + r,
                      DiscountSum(r, 0, nEnd), DiscountSum(r, nStart - 1, nEnd - 1));
    } else {
      DiscountSumScaled(r, 0, n - 1, nStart - 1, nStart - 1, nEnd - 1);
      Undivide(AnnuityDueFactor(r, n), DiscountSum(r, nStart - 1, nEnd - 1), Power(1.0 + r, nStart - 1),
               DiscountSum(r, 0, n - 1));
    }
  }

  // ---------------------------------------------------------------------------
  // What the payment formulas promise.

  /** The payment in arrears in terms of the year-by-year present values. */
  lemma ArrearsPaymentValue(r: real, nYears: int, presentValue: real)
    requires r > -1.0 && nYears > 6
    ensures DiscountSum(r, 1, nYears) > 0.0
    ensures AnnualPaymentInArrears(r, nYears, presentValue)
         == Success((presentValue + DiscountSum(r, 4, 5) * StatePension
                     + DiscountSum(r, 6, nYears) * StatePension * 2.0)
                    / DiscountSum(r, 1, nYears))
  {
    DiscountSumPositive(r, 1, nYears);
    PeriodAnnuityFactorValue(r, 4, 5);
    PeriodAnnuityFactorValue(r, 6, nYears);
    AnnuityFactorIsDiscountSum(r, nYears);
  }

  /** The payment in arrears is the level payment whose present value over nYears
      equals the pot plus the present value of one state pension in years 4-5 and
      two state pensions from year 6 on. */
  lemma ArrearsPaymentFundsPot(r: real, nYears: int, presentValue: real)
    requires r > -1.0 && nYears > 6
    ensures AnnualPaymentInArrears(r, nYears, presentValue).Success?
    ensures AnnualPaymentInArrears(r, nYears, presentValue).value * DiscountSum(r, 1, nYears)
         == presentValue + DiscountSum(r, 4, 5) * StatePension
            + DiscountSum(r, 6, nYears) * StatePension * 2.0
  {
    ArrearsPaymentValue(r, nYears, presentValue);
    DivideBack(AnnualPaymentInArrears(r, nYears, presentValue).value,
               presentValue + DiscountSum(r, 4, 5) * StatePension
               + DiscountSum(r, 6, nYears) * StatePension * 2.0, DiscountSum(r, 1, nYears));
  }

  /** The payment in advance in terms of the year-by-year present values: the payments
      fall now and at the end of years 1..nYears-1, the state pensions at the end of
      years 3-4 (one) and 5..nYears-1 (two). */
  lemma AdvancePaymentValue(r: real, nYears: int, presentValue: real)
    requires r > -1.0 && nYears > 6
    ensures DiscountSum(r, 0, nYears - 1) > 0.0
    ensures AnnualPaymentInAdvance(r, nYears, presentValue)
         == Success((presentValue + DiscountSum(r, 3, 4) * StatePension
                     + DiscountSum(r, 5, nYears - 1) * StatePension * 2.0)
                    / DiscountSum(r, 0, nYears - 1))
  {
    DiscountSumPositive(r, 0, nYears - 1);
    PeriodDueFactorValue(r, 1, 3);
    PeriodDueFactorValue(r, 4, 5);
    PeriodDueFactorValue(r, 6, nYears);
    DiscountSumSplit(r, 0, 2, 4);
    DiscountSumSplit(r, 0, 4, nYears - 1);
  }

  /** The payment in advance is the level payment whose present value, paid at the start
      of each of nYears years, equals the pot plus the present value of one state pension
      at the start of years 4-5 and two from year 6 on. */
  lemma AdvancePaymentFundsPot(r: real, nYears: int, presentValue: real)
    requires r > -1.0 && nYears > 6
    ensures AnnualPaymentInAdvance(r, nYears, presentValue).Success?
    ensures AnnualPaymentInAdvance(r, nYears, presentValue).value * DiscountSum(r, 0, nYears - 1)
         == presentValue + DiscountSum(r, 3, 4) * StatePension
            + DiscountSum(r, 5, nYears - 1) * StatePension * 2.0
  {
    AdvancePaymentValue(r, nYears, presentValue);
    DivideBack(AnnualPaymentInAdvance(r, nYears, presentValue).value,
               presentValue + DiscountSum(r, 3, 4) * StatePension
               + DiscountSum(r, 5, nYears - 1) * StatePension * 2.0, DiscountSum(r, 0, nYears - 1));
  }

  /** With no real growth both formulas pay (pot + 2 pensions + 2 pensions a year from
      year 6) spread evenly over the years, so arrears and advance coincide. */
  lemma ZeroRatePayments(nYears: int, presentValue: real)
    requires nYears > 6
    ensures AnnualPaymentInArrears(0.0, nYears, presentValue)
         == Success((presentValue + 2.0 * StatePension
                     + 2.0 * StatePension * (nYears - 5) as real) / nYears as real)
    ensures AnnualPaymentInAdvance(0.0, nYears, presentValue)
         == AnnualPaymentInArrears(0.0, nYears, presentValue)
  {
    PeriodFactorsAtZeroRate(1, 3);
    PeriodFactorsAtZeroRate(4, 5);
    PeriodFactorsAtZeroRate(6, nYears);
    assert 3.0 + 2.0 + (nYears - 6 + 1) as real == nYears as real;
  }

  // ---------------------------------------------------------------------------
  // Field identities on plain values.

  lemma StepAlgebra(r: real, x: real, y: real, a: real, a1: real)
    requires r != 0.0
    requires y == x * (1.0 + r)
    requires a == (1.0 - x) / r && a1 == (1.0 - y) / r
    ensures a == a1 + x
  {
    assert (1.0 - y) / r == (1.0 - x) / r - x;
  }

  lemma MoveDivision(x: real, b: real, r: real)
    requires r != 0.0
    ensures x * b / r == (x / r) * b
  {
  }

  lemma ProductPositive(x: real, y: real)
    requires x > 0.0 && y > 0.0
    ensures x * y > 0.0
  {
  }

  lemma QuotientPositive(x: real, y: real)
    requires x > 0.0 && y > 0.0
    ensures x / y > 0.0
  {
  }

  lemma ShiftStep(z: real, w: real, x: real, y: real, p: real, q: real, b: real)
    requires z == x + p && w == y + q && x == Times(y, b) && p == Times(q, b)
    ensures z == Times(w, b)
  {
  }

  lemma ScaledStep(z: real, x: real, p: real, w: real, y: real, q: real, d: real)
    requires z == x + p && w == y + q && Times(y, d) == x && Times(q, d) == p
    ensures Times(w, d) == z
  {
  }

  lemma DivideByInverse(a: real, p: real, b: real, x: real, y: real)
    requires b != 0.0 && p == 1.0 / b && a == x && y == Times(x, b)
    ensures a / p == y
  {
  }

  lemma Undivide(a: real, x: real, d: real, y: real)
    requires d != 0.0 && a == y && Times(x, d) == y
    ensures a / d == x
  {
  }

  lemma DivideBack(q: real, num: real, den: real)
    requires den != 0.0 && q == num / den
    ensures q * den == num
  {
  }
}
