/**
 * Loan amortization (services/finance.ts and its near-copy in App.tsx): the
 * remaining principal of a DEBT asset from its original amount, annual rate,
 * term, interest-only grace period and start date, as of an injected "today".
 * Money is exact real arithmetic; Math.pow is Pow with a whole exponent and
 * Math.round(x) is floor(x + 0.5).
 */
module Finance {

  import opened Text
  import opened Dates
  import opened Records

  function Pow(b: real, n: nat): real {
    if n == 0 then 1.0 else b * Pow(b, n - 1)
  }

  /** Math.round: halves go up. */
  function Round(x: real): (r: int)
    ensures x - 0.5 < r as real <= x + 0.5
  {
    (x + 0.5).Floor
  }

  /**
   * Whole months from the start date to today, by calendar year and month only;
   * the day of month takes no part.
   */
  function MonthsPassed(start: CalDate, today: CalDate): int {
    (today.year - start.year) * 12 + (today.month - start.month)
  }

  /** The early-return branches of the calculation, in the order the code tries them. */
  datatype Phase = Future | Grace | PaidOff | Linear | Annuity

  function LoanPhase(annualRate: real, totalYears: int, graceYears: int, monthsPassed: int): Phase {
    var graceMonths := graceYears * 12;
    if monthsPassed < 0 then Future
    else if monthsPassed <= graceMonths then Grace
    else if monthsPassed - graceMonths >= totalYears * 12 - graceMonths then PaidOff
    else if annualRate / 100.0 / 12.0 == 0.0 then Linear
    else Annuity
  }

  /**
   * The balance once the defaults are resolved (finance.ts:15-55): the
   * principal before the start and through the grace period, 0 once every
   * payment is made, a straight line at a zero rate, and otherwise the
   * rounded annuity balance.
   */
  function RemainingBalance(principal: real, annualRate: Rate, totalYears: int, graceYears: int, monthsPassed: int): real {
    var graceMonths := graceYears * 12;
    var monthlyRate := annualRate / 100.0 / 12.0;
    var n := totalYears * 12 - graceMonths;
    var p := monthsPassed - graceMonths;
    match LoanPhase(annualRate, totalYears, graceYears, monthsPassed)
    case Future => principal
    case Grace => principal
    case PaidOff => 0.0
    case Linear => LinearBalance(principal, n, p)
    case Annuity => AnnuityBalance(principal, monthlyRate, n, p)
  }

  /** Straight-line repayment: the principal less p/n of it. */
  function LinearBalance(principal: real, n: int, p: int): real
    requires n > 0
  {
    principal * (1.0 - (p as real / n as real))
  }

  /**
   * The annuity balance after p of n payments, principal * (f(n) - f(p)) / (f(n) - 1)
   * with f(k) = (1 + monthlyRate)^k, rounded to a whole amount.
   */
  function AnnuityBalance(principal: real, monthlyRate: real, n: nat, p: nat): real
    requires monthlyRate > -1.0 && monthlyRate != 0.0 && n >= 1
  {
    var b := 1.0 + monthlyRate;
    PowNotOne(b, n);
    Round(AnnuityAmount(principal, Pow(b, n), Pow(b, p))) as real
  }

  /** `principal * (factorN - factorP) / (factorN - 1)`. */
  function AnnuityAmount(principal: real, factorN: real, factorP: real): real
    requires factorN != 1.0
  {
    principal * (factorN - factorP) / (factorN - 1.0)
  }

  /** Whether the calculation applies at all: a DEBT with a start date and a truthy original amount. */
  predicate Amortizes(kind: Option<AssetType>, startDate: Option<CalDate>, originalAmount: Option<real>) {
    kind == Some(Debt) && startDate.Some? && Truthy(originalAmount)
  }

  /** calculateLoanBalance of services/finance.ts, on the form's Partial<Asset>. */
  function CalculateLoanBalance(a: AssetDraft, today: CalDate): real {
    if !Amortizes(a.kind, a.startDate, a.originalAmount) then OrElse(a.amount, 0.0)
    else
      RemainingBalance(a.originalAmount.value, RateOrElse(a.interestRate, 2.0),
                       OrElseInt(a.termYears, 20), OrElseInt(a.interestOnlyPeriod, 0),
                       MonthsPassed(a.startDate.value, today))
  }

  /** The local copy in App.tsx: the same, except that pass-through returns `amount` as is. */
  function AppLoanBalance(a: Asset, today: CalDate): real {
    if !Amortizes(Some(a.kind), a.startDate, a.originalAmount) then a.amount
    else
      RemainingBalance(a.originalAmount.value, RateOrElse(a.interestRate, 2.0),
                       OrElseInt(a.termYears, 20), OrElseInt(a.interestOnlyPeriod, 0),
                       MonthsPassed(a.startDate.value, today))
  }

  // ---------------------------------------------------------------
  // Arithmetic facts. Each names the product or quotient it is about as a
  // parameter, so that the solver meets the nonlinear term only once.

  lemma PowUnfold(b: real, m: nat)
    requires m >= 1
    ensures Pow(b, m) == b * Pow(b, m - 1)
  {
  }

  lemma ProductPositive(b: real, x: real, y: real)
    requires b > 0.0 && x > 0.0 && y == b * x
    ensures y > 0.0
  {
  }

  /** A factor above 1 makes a positive number larger; one below 1, smaller. */
  lemma ProductGrows(b: real, x: real, y: real)
    requires b > 1.0 && x > 0.0 && y == b * x
    ensures x < y
  {
    assert y - x == (b - 1.0) * x;
  }

  lemma ProductShrinks(b: real, x: real, y: real)
    requires 0.0 < b < 1.0 && x > 0.0 && y == b * x
    ensures y < x
  {
    assert x - y == (1.0 - b) * x;
  }

  lemma {:induction false} PowPositive(b: real, n: nat)
    requires b > 0.0
    ensures Pow(b, n) > 0.0
  {
    if n > 0 {
      PowPositive(b, n - 1);
      PowUnfold(b, n);
      ProductPositive(b, Pow(b, n - 1), Pow(b, n));
    }
  }

  lemma {:induction false} PowGrows(b: real, k: nat, m: nat)
    requires b > 1.0 && k < m
    ensures Pow(b, k) < Pow(b, m)
    decreases m
  {
    PowPositive(b, m - 1);
    PowUnfold(b, m);
    ProductGrows(b, Pow(b, m - 1), Pow(b, m));
    if k + 1 < m {
      PowGrows(b, k, m - 1);
    }
  }

  lemma {:induction false} PowShrinks(b: real, k: nat, m: nat)
    requires 0.0 < b < 1.0 && k < m
    ensures Pow(b, m) < Pow(b, k)
    decreases m
  {
    PowPositive(b, m - 1);
    PowUnfold(b, m);
    ProductShrinks(b, Pow(b, m - 1), Pow(b, m));
    if k + 1 < m {
      PowShrinks(b, k, m - 1);
    }
  }

  /** For a positive factor other than 1, b^n = 1 only at n = 0: the annuity denominator is never 0. */
  lemma PowNotOne(b: real, n: nat)
    requires b > 0.0 && b != 1.0 && n >= 1
    ensures Pow(b, n) != 1.0
  {
    if b > 1.0 {
      PowGrows(b, 0, n);
    } else {
      PowShrinks(b, 0, n);
    }
  }

  lemma DivNonNegative(x: real, d: real)
    requires x >= 0.0 && d > 0.0
    ensures x / d >= 0.0
  {
  }

  /** Division by a positive number keeps order. */
  lemma DivMonotone(x: real, y: real, d: real)
    requires x <= y && d > 0.0
    ensures x / d <= y / d
  {
    assert y / d - x / d == (y - x) / d;
    DivNonNegative(y - x, d);
  }

  lemma DivBelowOne(x: real, d: real)
    requires 0.0 < x < d
    ensures 0.0 < x / d < 1.0
  {
    assert d / d == 1.0;
    DivMonotone(x, d, d);
    assert d / d - x / d == (d - x) / d;
    assert (d - x) / d > 0.0;
  }

  /** A quotient of two same-signed numbers, the numerator smaller in size, lies in (0, 1). */
  lemma QuotientBounds(x: real, d: real, q: real)
    requires (0.0 < x < d) || (d < x < 0.0)
    requires q == x / d
    ensures 0.0 < q < 1.0
  {
    if d < 0.0 {
      assert x / d == (-x) / (-d);
      DivBelowOne(-x, -d);
    } else {
      DivBelowOne(x, d);
    }
  }

  lemma QuotientMonotone(x: real, y: real, d: real, qx: real, qy: real)
    requires (d > 0.0 && x <= y) || (d < 0.0 && y <= x)
    requires qx == x / d && qy == y / d
    ensures qx <= qy
  {
    if d < 0.0 {
      assert x / d == (-x) / (-d);
      assert y / d == (-y) / (-d);
      DivMonotone(-x, -y, -d);
    } else {
      DivMonotone(x, y, d);
    }
  }

  lemma MulNonNegative(x: real, y: real)
    requires x >= 0.0 && y >= 0.0
    ensures x * y >= 0.0
  {
  }

  /** (P * x) / d = P * (x / d). */
  lemma MulDiv(principal: real, x: real, d: real, q: real, y: real)
    requires d != 0.0 && q == x / d && y == principal * x / d
    ensures y == principal * q
  {
  }

  /** A share between 0 and 1 of a non-negative amount lies between 0 and that amount. */
  lemma ScaleWithin(principal: real, share: real, y: real)
    requires principal >= 0.0 && 0.0 <= share <= 1.0 && y == principal * share
    ensures 0.0 <= y <= principal
  {
    MulNonNegative(share, principal);
    MulNonNegative(1.0 - share, principal);
    assert principal - y == (1.0 - share) * principal;
  }

  lemma ScaleMonotone(principal: real, x: real, y: real, px: real, py: real)
    requires principal >= 0.0 && x <= y && px == principal * x && py == principal * y
    ensures px <= py
  {
    MulNonNegative(principal, y - x);
    assert py - px == principal * (y - x);
  }

  lemma RoundMonotone(x: real, y: real)
    requires x <= y
    ensures Round(x) <= Round(y)
  {
  }

  /** Rounding a value between 0 and a whole amount stays between them. */
  lemma RoundWithin(x: real, whole: int)
    requires 0.0 <= x <= whole as real
    ensures 0 <= Round(x) <= whole
  {
  }

  // ---------------------------------------------------------------
  // The annuity and straight-line phases

  /** The share of the principal still owed after p of n payments, (f(n) - f(p)) / (f(n) - 1). */
  function OwedShare(monthlyRate: real, n: nat, p: nat): real
    requires monthlyRate > -1.0 && monthlyRate != 0.0 && n >= 1
  {
    var b := 1.0 + monthlyRate;
    PowNotOne(b, n);
    ShareOf(Pow(b, n), Pow(b, p))
  }

  function ShareOf(factorN: real, factorP: real): real
    requires factorN != 1.0
  {
    (factorN - factorP) / (factorN - 1.0)
  }

  lemma AmountIsShare(principal: real, factorN: real, factorP: real)
    requires factorN != 1.0
    ensures AnnuityAmount(principal, factorN, factorP) == principal * ShareOf(factorN, factorP)
  {
    MulDiv(principal, factorN - factorP, factorN - 1.0, ShareOf(factorN, factorP), AnnuityAmount(principal, factorN, factorP));
  }

  /** The unrounded annuity balance is the principal times the owed share. */
  lemma AnnuityShare(principal: real, monthlyRate: real, n: nat, p: nat, y: real)
    requires monthlyRate > -1.0 && monthlyRate != 0.0 && n >= 1
    requires y == principal * OwedShare(monthlyRate, n, p)
    ensures AnnuityBalance(principal, monthlyRate, n, p) == Round(y) as real
  {
    var b := 1.0 + monthlyRate;
    var factorN, factorP := Pow(b, n), Pow(b, p);
    PowNotOne(b, n);
    AmountIsShare(principal, factorN, factorP);
    assert OwedShare(monthlyRate, n, p) == ShareOf(factorN, factorP);
    assert y == AnnuityAmount(principal, factorN, factorP);
    assert AnnuityBalance(principal, monthlyRate, n, p) == Round(AnnuityAmount(principal, factorN, factorP)) as real;
  }

  /** While payments remain, the owed share lies strictly between 0 and 1. */
  lemma OwedShareBounds(monthlyRate: real, n: nat, p: nat)
    requires monthlyRate > -1.0 && monthlyRate != 0.0 && 0 < p < n
    ensures 0.0 < OwedShare(monthlyRate, n, p) < 1.0
  {
    var b := 1.0 + monthlyRate;
    if b > 1.0 {
      PowGrows(b, p, n);
      PowGrows(b, 0, p);
    } else {
      PowShrinks(b, p, n);
      PowShrinks(b, 0, p);
    }
    QuotientBounds(Pow(b, n) - Pow(b, p), Pow(b, n) - 1.0, ShareOf(Pow(b, n), Pow(b, p)));
  }

  /** The owed share never grows as more payments are made. */
  lemma OwedShareMonotone(monthlyRate: real, n: nat, p1: nat, p2: nat)
    requires monthlyRate > -1.0 && monthlyRate != 0.0 && n >= 1 && p1 <= p2
    ensures OwedShare(monthlyRate, n, p2) <= OwedShare(monthlyRate, n, p1)
  {
    var b := 1.0 + monthlyRate;
    if p1 < p2 {
      if b > 1.0 {
        PowGrows(b, p1, p2);
        PowGrows(b, 0, n);
      } else {
        PowShrinks(b, p1, p2);
        PowShrinks(b, 0, n);
      }
      QuotientMonotone(Pow(b, n) - Pow(b, p2), Pow(b, n) - Pow(b, p1), Pow(b, n) - 1.0,
                       ShareOf(Pow(b, n), Pow(b, p2)), ShareOf(Pow(b, n), Pow(b, p1)));
    }
  }

  /** Annuity balance for 0 < p < n payments made, between 0 and a whole principal. */
  lemma AnnuityWithin(whole: int, monthlyRate: real, n: nat, p: nat)
    requires whole >= 0 && monthlyRate > -1.0 && monthlyRate != 0.0 && 0 < p < n
    ensures 0.0 <= AnnuityBalance(whole as real, monthlyRate, n, p) <= whole as real
  {
    var share := OwedShare(monthlyRate, n, p);
    var y := whole as real * share;
    OwedShareBounds(monthlyRate, n, p);
    ScaleWithin(whole as real, share, y);
    RoundWithin(y, whole);
    AnnuityShare(whole as real, monthlyRate, n, p, y);
  }

  lemma AnnuityNonIncreasing(principal: real, monthlyRate: real, n: nat, p1: nat, p2: nat)
    requires principal >= 0.0 && monthlyRate > -1.0 && monthlyRate != 0.0 && n >= 1 && p1 <= p2
    ensures AnnuityBalance(principal, monthlyRate, n, p2) <= AnnuityBalance(principal, monthlyRate, n, p1)
  {
    var s1, s2 := OwedShare(monthlyRate, n, p1), OwedShare(monthlyRate, n, p2);
    var y1, y2 := principal * s1, principal * s2;
    OwedShareMonotone(monthlyRate, n, p1, p2);
    ScaleMonotone(principal, s2, s1, y2, y1);
    RoundMonotone(y2, y1);
    AnnuityShare(principal, monthlyRate, n, p1, y1);
    AnnuityShare(principal, monthlyRate, n, p2, y2);
  }

  /** Straight-line balance for 0 < p < n payments made, between 0 and the principal. */
  lemma LinearWithin(principal: real, n: nat, p: nat)
    requires principal >= 0.0 && 0 < p < n
    ensures 0.0 <= LinearBalance(principal, n, p) <= principal
  {
    var q := p as real / n as real;
    QuotientBounds(p as real, n as real, q);
    ScaleWithin(principal, 1.0 - q, LinearBalance(principal, n, p));
  }

  lemma LinearNonIncreasing(principal: real, n: nat, p1: nat, p2: nat)
    requires principal >= 0.0 && n >= 1 && p1 <= p2
    ensures LinearBalance(principal, n, p2) <= LinearBalance(principal, n, p1)
  {
    var q1, q2 := p1 as real / n as real, p2 as real / n as real;
    QuotientMonotone(p1 as real, p2 as real, n as real, q1, q2);
    ScaleMonotone(principal, 1.0 - q2, 1.0 - q1, LinearBalance(principal, n, p2), LinearBalance(principal, n, p1));
  }

  // ---------------------------------------------------------------
  // Properties of the calculation

  /** A future start and the grace period (inclusive) keep the principal; the full term gives 0. */
  lemma PhaseBoundaries(principal: real, annualRate: Rate, totalYears: int, graceYears: int, monthsPassed: int)
    ensures monthsPassed < 0 ==> RemainingBalance(principal, annualRate, totalYears, graceYears, monthsPassed) == principal
    ensures 0 <= monthsPassed <= graceYears * 12 ==> RemainingBalance(principal, annualRate, totalYears, graceYears, monthsPassed) == principal
    ensures monthsPassed >= 0 && monthsPassed > graceYears * 12 && monthsPassed >= totalYears * 12
        ==> RemainingBalance(principal, annualRate, totalYears, graceYears, monthsPassed) == 0.0
  {
  }

  /** For a non-negative whole principal the balance stays between 0 and the principal. */
  lemma BalanceBounds(whole: int, annualRate: Rate, totalYears: int, graceYears: int, monthsPassed: int)
    requires whole >= 0
    ensures 0.0 <= RemainingBalance(whole as real, annualRate, totalYears, graceYears, monthsPassed) <= whole as real
  {
    var n := totalYears * 12 - graceYears * 12;
    var p := monthsPassed - graceYears * 12;
    var monthlyRate := annualRate / 100.0 / 12.0;
    match LoanPhase(annualRate, totalYears, graceYears, monthsPassed)
    case Future =>
    case Grace =>
    case PaidOff =>
    case Linear =>
      LinearWithin(whole as real, n, p);
    case Annuity =>
      AnnuityWithin(whole, monthlyRate, n, p);
  }

  /** With fixed parameters the balance never grows as months pass. */
  lemma BalanceNonIncreasing(whole: int, annualRate: Rate, totalYears: int, graceYears: int, m1: int, m2: int)
    requires whole >= 0 && m1 <= m2
    ensures RemainingBalance(whole as real, annualRate, totalYears, graceYears, m2)
         <= RemainingBalance(whole as real, annualRate, totalYears, graceYears, m1)
  {
    var principal := whole as real;
    BalanceBounds(whole, annualRate, totalYears, graceYears, m1);
    BalanceBounds(whole, annualRate, totalYears, graceYears, m2);
    var ph1 := LoanPhase(annualRate, totalYears, graceYears, m1);
    var ph2 := LoanPhase(annualRate, totalYears, graceYears, m2);
    var n := totalYears * 12 - graceYears * 12;
    var p1, p2 := m1 - graceYears * 12, m2 - graceYears * 12;
    var monthlyRate := annualRate / 100.0 / 12.0;
    if ph1 == Annuity && ph2 == Annuity {
      AnnuityNonIncreasing(principal, monthlyRate, n, p1, p2);
    } else if ph1 == Linear && ph2 == Linear {
      LinearNonIncreasing(principal, n, p1, p2);
    } else {
      // The phases follow one another: Future, Grace, then Linear or Annuity, then PaidOff.
      assert ph1 == Future || ph1 == Grace || ph2 == PaidOff;
    }
  }

  /** The default rate of 2 % replaces a zero rate, so the straight-line branch is never taken. */
  lemma LinearBranchUnreachable(a: AssetDraft, today: CalDate)
    requires Amortizes(a.kind, a.startDate, a.originalAmount)
    ensures LoanPhase(RateOrElse(a.interestRate, 2.0), OrElseInt(a.termYears, 20),
                      OrElseInt(a.interestOnlyPeriod, 0), MonthsPassed(a.startDate.value, today)) != Linear
  {
  }

  /** Outside a DEBT with start date and truthy original amount, the stored amount passes through (0 when absent). */
  lemma PassThrough(a: AssetDraft, today: CalDate)
    requires !Amortizes(a.kind, a.startDate, a.originalAmount)
    ensures a.amount.Some? && a.amount.value != 0.0 ==> CalculateLoanBalance(a, today) == a.amount.value
    ensures a.amount.None? || a.amount.value == 0.0 ==> CalculateLoanBalance(a, today) == 0.0
  {
  }

  /** The day of month of the start date never changes the result. */
  lemma StartDayIgnored(a: AssetDraft, today: CalDate, day: int)
    requires a.startDate.Some?
    ensures CalculateLoanBalance(a.(startDate := Some(a.startDate.value.(day := day))), today)
         == CalculateLoanBalance(a, today)
  {
  }

  /** The App.tsx copy agrees with services/finance.ts on every stored asset. */
  lemma AppCopyAgrees(a: Asset, today: CalDate)
    ensures AppLoanBalance(a, today) == CalculateLoanBalance(ToDraft(a), today)
  {
  }

  /** Between 0 and the original amount when that amount is a non-negative whole number. */
  lemma LoanBalanceBounds(a: AssetDraft, today: CalDate, whole: nat)
    requires Amortizes(a.kind, a.startDate, a.originalAmount) && a.originalAmount.value == whole as real
    ensures 0.0 <= CalculateLoanBalance(a, today) <= a.originalAmount.value
  {
    BalanceBounds(whole, RateOrElse(a.interestRate, 2.0),
                  OrElseInt(a.termYears, 20), OrElseInt(a.interestOnlyPeriod, 0),
                  MonthsPassed(a.startDate.value, today));
  }

  /** A later today (by calendar month) never gives a larger balance. */
  lemma LoanBalanceNonIncreasing(a: AssetDraft, today1: CalDate, today2: CalDate, whole: nat)
    requires Amortizes(a.kind, a.startDate, a.originalAmount) && a.originalAmount.value == whole as real
    requires today1.year * 12 + today1.month <= today2.year * 12 + today2.month
    ensures CalculateLoanBalance(a, today2) <= CalculateLoanBalance(a, today1)
  {
    BalanceNonIncreasing(whole, RateOrElse(a.interestRate, 2.0),
                         OrElseInt(a.termYears, 20), OrElseInt(a.interestOnlyPeriod, 0),
                         MonthsPassed(a.startDate.value, today1), MonthsPassed(a.startDate.value, today2));
  }
}
