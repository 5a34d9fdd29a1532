/**
 * The per-coin arithmetic of the report: percentage change, profit per $100
 * and the fixed-ratio support, resistance and Fibonacci levels.  Python floats
 * are abstracted as exact reals.
 */
module Metrics {

  /**
   * `calculate_percentage_change`: 0 when either price is 0, otherwise the
   * change relative to the old price, in percent.
   */
  function PercentageChange(oldPrice: real, newPrice: real): (r: real)
    ensures oldPrice == 0.0 || newPrice == 0.0 ==> r == 0.0
    ensures oldPrice != 0.0 && newPrice != 0.0 ==> oldPrice * (1.0 + r / 100.0) == newPrice
    ensures oldPrice > 0.0 && newPrice > 0.0 ==>
              (r > 0.0 <==> newPrice > oldPrice) && (r < 0.0 <==> newPrice < oldPrice)
  {
    if oldPrice == 0.0 || newPrice == 0.0 then 0.0
    else (newPrice - oldPrice) / oldPrice * 100.0
  }

  /**
   * `profit_per_100_invested`, as written: (100 / new) * (new - old).  Python
   * raises ZeroDivisionError for a zero new price, hence the precondition.
   */
  function ProfitPer100(oldPrice: real, newPrice: real): (r: real)
    requires newPrice != 0.0
    ensures r * newPrice == 100.0 * (newPrice - oldPrice)
    ensures newPrice > 0.0 ==> (r > 0.0 <==> newPrice > oldPrice) && (r < 0.0 <==> newPrice < oldPrice)
    ensures newPrice > 0.0 && oldPrice >= 0.0 ==> r <= 100.0
  {
    (100.0 / newPrice) * (newPrice - oldPrice)
  }

  /** `support`: 5% below the new price. */
  function Support(newPrice: real): (r: real)
    ensures newPrice > 0.0 ==> 0.0 < r < newPrice
    ensures r == 0.0 <==> newPrice == 0.0
  {
    newPrice * 0.95
  }

  /** `resistance`: 5% above the new price, so support and resistance are centred on it. */
  function Resistance(newPrice: real): (r: real)
    ensures newPrice > 0.0 ==> newPrice < r
    ensures Support(newPrice) + r == 2.0 * newPrice
  {
    newPrice * 1.05
  }

  /** `fibonacci_levels`: three retracement levels of the new price. */
  function FibonacciLevels(newPrice: real): (r: seq<real>)
    ensures |r| == 3
    ensures newPrice > 0.0 ==> 0.0 < r[0] < r[1] < r[2] < newPrice
    ensures r[0] + r[1] == r[2]
  {
    [newPrice * 0.236, newPrice * 0.382, newPrice * 0.618]
  }

  /**
   * Profit and percentage change are both 100 * (new - old), divided by the new
   * and by the old price respectively: they differ unless the price is unchanged.
   */
  lemma ProfitVersusChange(oldPrice: real, newPrice: real)
    requires oldPrice != 0.0 && newPrice != 0.0
    ensures ProfitPer100(oldPrice, newPrice) * newPrice == PercentageChange(oldPrice, newPrice) * oldPrice
    ensures ProfitPer100(oldPrice, newPrice) == PercentageChange(oldPrice, newPrice) <==> oldPrice == newPrice
  {
  }

  /** Values of the formulas as written, for a 10% rise and a 50% fall. */
  lemma WorkedExamples()
    ensures PercentageChange(100.0, 110.0) == 10.0
    ensures ProfitPer100(100.0, 110.0) == 1000.0 / 110.0
    ensures PercentageChange(200.0, 100.0) == -50.0
    ensures ProfitPer100(200.0, 100.0) == -100.0
    ensures PercentageChange(0.0, 5.0) == 0.0 && PercentageChange(5.0, 0.0) == 0.0
  {
  }
}
