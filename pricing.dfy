/** The rule-based pricing engine of the Streamlit apps: `calculate_loan_amount` maps average daily
    sales, business type and operating days to a recommended advance and the part of it that the
    "food" business type adds. app.py and pay2.py carry copies identical in behaviour (only their
    docstrings and layout differ), so one function models both.

    Python computes in floating point and returns `float(int(x))`; here the arithmetic is exact
    (`real`) and the two results are the integers those floats hold. */
module Pricing {
  import opened Text

  /** (recommended loan amount, potential food business increment) */
  datatype Quote = Quote(amount: int, incentive: int)

  /** The `(0.0, 0.0)` answer: no loan recommended. */
  const NoLoan := Quote(0, 0)

  const MaxLoanAmount: real := 600.0
  const MinDisbursableAmount: real := 10.0
  const OperatingDaysIncrement: real := 10.0

  /** Python's `int(x)` on a float: truncation toward zero. */
  function Trunc(x: real): (n: int)
    ensures 0.0 <= x ==> 0 <= n && n as real <= x < n as real + 1.0
    ensures x < 0.0 ==> n <= 0 && n as real - 1.0 < x <= n as real
  {
    if x >= 0.0 then x.Floor else -((-x).Floor)
  }

  /** The sales tier, every band inclusive of its lower bound. */
  function BaseFromSales(dailySales: real): (base: int)
    ensures base == 0 <==> dailySales < 5.0
    ensures base in {0, 15, 25, 35}
  {
    if dailySales < 5.0 then 0
    else if dailySales < 10.0 then 15
    else if dailySales < 15.0 then 25
    else 35
  }

  /** `calculate_loan_amount(daily_sales, business_type, operating_days)` of app.py and pay2.py. */
  function CalculateLoanAmount(dailySales: real, businessType: string, operatingDays: int): (q: Quote)
    ensures dailySales < 5.0 ==> q == NoLoan
    ensures q == NoLoan || (10 <= q.amount <= 600 && 0 <= q.incentive)
    ensures q.amount > 0 <==> dailySales >= 5.0
    ensures q.incentive != 0 ==> Lower(businessType) == "food"
  {
    var base := BaseFromSales(dailySales);
    if base == 0 then NoLoan
    else
      var kind := Lower(businessType);
      var increment: real := if kind == "food" then base as real * 0.1 else 0.0;
      var adjusted: real :=
        if kind == "food" then base as real * 1.1
        else if kind == "clothing" then base as real * 0.9
        else base as real;
      var withDays := if operatingDays >= 6 then adjusted + OperatingDaysIncrement else adjusted;
      var final := if withDays <= MaxLoanAmount then withDays else MaxLoanAmount;
      if final < MinDisbursableAmount then NoLoan
      else Quote(Trunc(final), Trunc(increment))
  }

  /** An independent statement of the same rules in integer arithmetic, counting in tenths of a
      currency unit: the food multiplier is 11 tenths, clothing 9, anything else 10; the
      operating-days bonus is 100 tenths. The cap and the minimum never bind for these tiers. */
  function QuoteInTenths(dailySales: real, businessType: string, operatingDays: int): (q: Quote) {
    var base := BaseFromSales(dailySales);
    if base == 0 then NoLoan
    else
      var kind := Lower(businessType);
      var factor := if kind == "food" then 11 else if kind == "clothing" then 9 else 10;
      var tenths := base * factor + (if operatingDays >= 6 then 100 else 0);
      Quote(tenths / 10, if kind == "food" then base / 10 else 0)
  }

  /** The exact-real engine truncates to the integer reference: the food incentive is
      floor(base * 0.1) and the amount floor(base * factor + bonus). */
  lemma MatchesTenths(dailySales: real, businessType: string, operatingDays: int)
    ensures CalculateLoanAmount(dailySales, businessType, operatingDays)
         == QuoteInTenths(dailySales, businessType, operatingDays)
  {
  }

  /** When no loan is recommended the answer is the pair (0, 0), never a zero amount with a
      leftover incentive; in particular for sales below 5. */
  lemma NoRecommendationIsZeroPair(dailySales: real, businessType: string, operatingDays: int)
    ensures CalculateLoanAmount(dailySales, businessType, operatingDays).amount == 0 ==>
      CalculateLoanAmount(dailySales, businessType, operatingDays) == NoLoan
    ensures dailySales < 5.0 ==> CalculateLoanAmount(dailySales, businessType, operatingDays) == NoLoan
  {
  }

  /** For a fixed business type and number of operating days, the amount never falls as the
      daily sales rise. */
  lemma AmountMonotone(s1: real, s2: real, businessType: string, operatingDays: int)
    requires s1 <= s2
    ensures CalculateLoanAmount(s1, businessType, operatingDays).amount
         <= CalculateLoanAmount(s2, businessType, operatingDays).amount
  {
  }

  /** The tiers: each band includes its lower bound, so a boundary value takes the higher tier. */
  lemma TierBands(dailySales: real, businessType: string, operatingDays: int)
    requires Lower(businessType) != "food" && Lower(businessType) != "clothing" && operatingDays < 6
    ensures 5.0 <= dailySales < 10.0 ==> CalculateLoanAmount(dailySales, businessType, operatingDays).amount == 15
    ensures 10.0 <= dailySales < 15.0 ==> CalculateLoanAmount(dailySales, businessType, operatingDays).amount == 25
    ensures 15.0 <= dailySales ==> CalculateLoanAmount(dailySales, businessType, operatingDays).amount == 35
  {
  }

  /** Business-type matching ignores case: only the lower-cased type matters. */
  lemma CaseInsensitive(dailySales: real, businessType: string, operatingDays: int)
    ensures CalculateLoanAmount(dailySales, businessType, operatingDays)
         == CalculateLoanAmount(dailySales, Lower(businessType), operatingDays)
  {
  }

  /** Sales 12, type "Food", 7 days: 25 * 1.1 = 27.5, plus 10 is 37.5, truncated to 37; the
      incentive 2.5 truncates to 2. */
  lemma FoodScenario()
    ensures CalculateLoanAmount(12.0, "Food", 7) == Quote(37, 2)
  {
  }

  /** Sales 12, type "clothing", 5 days: 25 * 0.9 = 22.5 truncates (not rounds) to 22. */
  lemma ClothingTruncates()
    ensures CalculateLoanAmount(12.0, "clothing", 5) == Quote(22, 0)
  {
  }
}
