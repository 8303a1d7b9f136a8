/**
 * `calculateInvestment`: the placeholder calculation. The amount arrives as
 * the real number the amount text denotes; the dates are accepted and unused.
 */
module Investment {

  /** The calculation record. */
  datatype Calculation = Calculation(
    initialInvestment: real, finalValue: real, returnPercentage: real,
    isPositive: bool, recommendations: seq<string>)

  /** The three fixed recommendations, in the order they are shown. */
  const Recommendations: seq<string> := [
    "Diversifica tu cartera para minimizar riesgos",
    "Considera reinvertir las ganancias",
    "Mantén un horizonte de inversión a largo plazo"
  ]

  /** The stub's multiplier. */
  const Multiplier: real := 1.5

  /** The stub's return, as a constant. */
  const ReturnPercentage: real := 50.0

  /**
   * The calculation: the final value is the amount times 1.5, and the stated
   * return of 50% is the return those two values give for any non-zero amount.
   */
  function CalculateInvestment(amount: real, startDate: string, endDate: string): (r: Calculation)
    ensures r.initialInvestment == amount
    ensures r.finalValue - r.initialInvestment == amount / 2.0
    ensures amount != 0.0 ==> r.returnPercentage == (r.finalValue - r.initialInvestment) / r.initialInvestment * 100.0
    ensures r.returnPercentage == 50.0 && r.isPositive
    ensures r.recommendations == Recommendations && |r.recommendations| == 3
  {
    var finalValue := amount * Multiplier;
    assert amount != 0.0 ==> (finalValue - amount) / amount == 0.5;
    Calculation(amount, finalValue, ReturnPercentage, true, Recommendations)
  }

  /** The dates have no effect on the result. */
  lemma DatesAreIgnored(amount: real, start1: string, end1: string, start2: string, end2: string)
    ensures CalculateInvestment(amount, start1, end1) == CalculateInvestment(amount, start2, end2)
  {
  }
}
