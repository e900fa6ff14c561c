/** The pricing engine of logic.py: the same shape of rules as the apps' engine, but with large
    tiers, a single result and a business type compared case-sensitively. As in the apps'
    engine the arithmetic is exact and the result is the integer held by `float(int(x))`. */
module LogicPricing {
  import Pricing

  const MaxLoanAmount: real := 20000.0
  const MinDisbursableAmount: real := 10.0
  const OperatingDaysIncrement: real := 2000.0

  /** The sales tier, every band inclusive of its lower bound. */
  function BaseFromSales(dailySales: real): (base: int)
    ensures base == 0 <==> dailySales < 500.0
    ensures base in {0, 5000, 10000, 15000}
  {
    if dailySales < 500.0 then 0
    else if dailySales < 1000.0 then 5000
    else if dailySales < 2000.0 then 10000
    else 15000
  }

  /** `calculate_loan_amount(daily_sales, business_type, operating_days)` of logic.py. */
  function CalculateLoanAmount(dailySales: real, businessType: string, operatingDays: int): (amount: int)
    ensures dailySales < 500.0 ==> amount == 0
    ensures amount == 0 || 10 <= amount <= 20000
    ensures amount > 0 <==> dailySales >= 500.0
  {
    var base := BaseFromSales(dailySales);
    if base == 0 then 0
    else
      var adjusted: real :=
        if businessType == "food" then base as real * 1.1
        else if businessType == "clothing" then base as real * 0.9
        else base as real;
      var withDays := if operatingDays >= 6 then adjusted + OperatingDaysIncrement else adjusted;
      var final := if withDays <= MaxLoanAmount then withDays else MaxLoanAmount;
      if final < MinDisbursableAmount then 0
      else Pricing.Trunc(final)
  }

  /** Independent integer statement: every tier is a multiple of 1000, so the multipliers are
      exact and nothing is lost to truncation; the cap of 20000 is never reached. */
  function AmountExact(dailySales: real, businessType: string, operatingDays: int): (amount: int) {
    var base := BaseFromSales(dailySales);
    if base == 0 then 0
    else
      var factor := if businessType == "food" then 11 else if businessType == "clothing" then 9 else 10;
      base / 10 * factor + (if operatingDays >= 6 then 2000 else 0)
  }

  lemma MatchesExact(dailySales: real, businessType: string, operatingDays: int)
    ensures CalculateLoanAmount(dailySales, businessType, operatingDays)
         == AmountExact(dailySales, businessType, operatingDays)
  {
  }

  /** For a fixed business type and number of operating days, the amount never falls as the
      daily sales rise. */
  lemma AmountMonotone(s1: real, s2: real, businessType: string, operatingDays: int)
    requires s1 <= s2
    ensures CalculateLoanAmount(s1, businessType, operatingDays)
         <= CalculateLoanAmount(s2, businessType, operatingDays)
  {
  }

  /** The tiers with no adjustment: each band includes its lower bound. */
  lemma TierBands(dailySales: real, operatingDays: int)
    requires operatingDays < 6
    ensures 500.0 <= dailySales < 1000.0 ==> CalculateLoanAmount(dailySales, "other", operatingDays) == 5000
    ensures 1000.0 <= dailySales < 2000.0 ==> CalculateLoanAmount(dailySales, "other", operatingDays) == 10000
    ensures 2000.0 <= dailySales ==> CalculateLoanAmount(dailySales, "other", operatingDays) == 15000
  {
  }

  /** The comparison is case-sensitive: "Food" gets no food multiplier and prices like any
      unrecognised type, while "food" gets ten percent more. */
  lemma CaseSensitive(dailySales: real, operatingDays: int)
    requires dailySales >= 500.0
    ensures CalculateLoanAmount(dailySales, "Food", operatingDays)
         == CalculateLoanAmount(dailySales, "other", operatingDays)
    ensures CalculateLoanAmount(dailySales, "food", operatingDays)
         > CalculateLoanAmount(dailySales, "Food", operatingDays)
  {
  }

  /** Six or more operating days add 2000 to the adjusted amount. */
  lemma OperatingDaysBonus(dailySales: real, businessType: string)
    requires dailySales >= 500.0
    ensures CalculateLoanAmount(dailySales, businessType, 6)
         == CalculateLoanAmount(dailySales, businessType, 5) + 2000
  {
  }

  /** The sample call: sales 1500, "food", 7 days gives 10000 * 1.1 + 2000 = 13000. */
  lemma SampleUsage()
    ensures CalculateLoanAmount(1500.0, "food", 7) == 13000
  {
  }
}
