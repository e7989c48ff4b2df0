/** The three KPI cards: total sales, total profit and the profit margin
    in percent, guarded against a zero sales total. */
module Metrics {
  import opened Records

  datatype Kpis = Kpis(totalSales: int, totalProfit: int, marginPercent: real)

  /** Profit as a percentage of sales, or 0 unless sales are positive. */
  function Margin(totalSales: int, totalProfit: int): (m: real)
    ensures totalSales <= 0 ==> m == 0.0
    ensures totalSales > 0 ==> m * (totalSales as real) == 100.0 * (totalProfit as real)
  {
    if totalSales > 0 then (totalProfit as real / totalSales as real) * 100.0 else 0.0
  }

  /** The KPIs of the filtered table. */
  function ComputeKpis(filtered: seq<Record>): (k: Kpis)
    ensures k.totalSales == ColumnSum(filtered, SalesColumn)
    ensures k.totalProfit == ColumnSum(filtered, ProfitColumn)
    ensures k.marginPercent == Margin(k.totalSales, k.totalProfit)
    ensures filtered == [] ==> k == Kpis(0, 0, 0.0)
  {
    var sales := ColumnSum(filtered, SalesColumn);
    var profit := ColumnSum(filtered, ProfitColumn);
    Kpis(sales, profit, Margin(sales, profit))
  }

  /** On generator-shaped rows the sales total is positive as soon as a
      row survives, and the margin is then strictly above 1 % (profit at
      least 20 against sales below 2000) and at most 499 % (profit below
      500 against sales at least 100); with no rows it is 0. */
  lemma MarginBounds(filtered: seq<Record>)
    requires AllWellFormed(filtered)
    ensures var k := ComputeKpis(filtered);
      && 0.0 <= k.marginPercent
      && (filtered != [] ==> k.totalSales > 0 && 1.0 < k.marginPercent <= 499.0)
  {
    if filtered != [] {
      var sales := ColumnSum(filtered, SalesColumn);
      var profit := ColumnSum(filtered, ProfitColumn);
      SumsRatio(filtered);
      var s, p := sales as real, profit as real;
      assert 100.0 * p > s && 100.0 * p <= 499.0 * s;
      var m := Margin(sales, profit);
      MultiplierBounds(m, s, 100.0 * p);
    }
  }

  /** On nonempty generator-shaped rows 100 times the profit total exceeds
      the sales total and is at most 499 times it. */
  lemma SumsRatio(filtered: seq<Record>)
    requires AllWellFormed(filtered) && filtered != []
    ensures var sales, profit := ColumnSum(filtered, SalesColumn), ColumnSum(filtered, ProfitColumn);
      sales > 0 && sales < 100 * profit <= 499 * sales
  {
    ColumnSumBounds(filtered, SalesColumn);
    ColumnSumBounds(filtered, ProfitColumn);
  }

  /** Dividing out a positive factor: m * s = q with s < q <= 499 * s. */
  lemma MultiplierBounds(m: real, s: real, q: real)
    requires s > 0.0
    requires m * s == q
    requires s < q <= 499.0 * s
    ensures 1.0 < m <= 499.0
  {
  }
}
