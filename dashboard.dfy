/** One refresh of the dashboard: filter the table, then derive the KPI
    cards and the three chart views from the filtered rows. */
module Dashboard {
  import opened Records
  import opened Filtering
  import opened Metrics
  import opened Aggregation

  /** Everything the page shows for one setting of the filters. */
  datatype Snapshot = Snapshot(
    filtered: seq<Record>,
    kpis: Kpis,
    dailySales: seq<(int, int)>,
    categoryProfit: seq<(Category, int)>,
    categorySales: seq<(Category, int)>)

  /** The views agree with the KPI cards: the daily series and the pie's
      per-category sales add up to the sales total, the bar chart's
      per-category profit adds up to the profit total. */
  function Refresh(data: seq<Record>, c: Criteria): (s: Snapshot)
    ensures s.filtered == Filter(data, c)
    ensures SumValues(s.dailySales) == s.kpis.totalSales
    ensures SumValues(s.categorySales) == s.kpis.totalSales
    ensures SumValues(s.categoryProfit) == s.kpis.totalProfit
  {
    var rows := Filter(data, c);
    Snapshot(rows, ComputeKpis(rows), DailySales(rows), CategoryProfit(rows), CategorySales(rows))
  }

  /** An empty category selection or an inverted date interval shows no
      rows, zero KPIs and empty charts. */
  lemma RefreshEmpty(data: seq<Record>, c: Criteria)
    requires c.categories == [] || c.startDate > c.endDate
    ensures Refresh(data, c) == Snapshot([], Kpis(0, 0, 0.0), [], [], [])
  {
    FilterEmptyCriteria(data, c);
  }

  /** On a generator-shaped table the margin card never shows a negative
      value, and once some row survives the filter it lies in (1, 499]. */
  lemma RefreshMarginBounds(data: seq<Record>, c: Criteria)
    requires AllWellFormed(data)
    ensures var s := Refresh(data, c);
      && 0.0 <= s.kpis.marginPercent
      && (s.filtered != [] ==> 1.0 < s.kpis.marginPercent <= 499.0)
  {
    FilterWellFormed(data, c);
    MarginBounds(Filter(data, c));
  }

  /** Three rows: 2024-01-01 Electronics, 2024-01-02 Clothing, 2024-01-05 Electronics. */
  const Sample: seq<Record> := [
    Record(0, Electronics, 500, 100),
    Record(1, Clothing, 300, 60),
    Record(4, Electronics, 200, 40)]

  /** The first two days and Electronics alone keep only the first row,
      with a margin of 20 %. */
  lemma SampleElectronicsFirstTwoDays()
    ensures Refresh(Sample, Criteria(0, 1, [Electronics])) ==
      Snapshot([Sample[0]], Kpis(500, 100, 20.0), [(0, 500)], [(Electronics, 100)], [(Electronics, 500)])
  {
    var c := Criteria(0, 1, [Electronics]);
    assert Sample[1..][1..] == [Sample[2]] && [Sample[2]][1..] == [];
    assert Filter([Sample[2]], c) == [];
    assert Filter(Sample[1..], c) == [];
    assert Filter(Sample, c) == [Sample[0]];
    var rows := [Sample[0]];
    assert rows[1..] == [];
    assert ColumnSum(rows, SalesColumn) == 500 && ColumnSum(rows, ProfitColumn) == 100;
    assert Margin(500, 100) == 20.0 by {
      assert 100.0 / 500.0 == 0.2;
    }
    assert GroupSum(rows, ByDate, SalesColumn) == [(0, 500)];
    assert GroupSum(rows, ByCategory, ProfitColumn) == [(2, 100)];
    assert GroupSum(rows, ByCategory, SalesColumn) == [(2, 500)];
    assert Label([(2, 100)]) == [(Electronics, 100)];
    assert Label([(2, 500)]) == [(Electronics, 500)];
  }

  /** The whole range and every category: days in ascending order, and
      categories in alphabetical order with their totals merged. */
  lemma SampleEverything()
    ensures Refresh(Sample, Criteria(0, DayCount - 1, [Electronics, Clothing, Groceries, Books])) ==
      Snapshot(Sample, Kpis(1000, 200, 20.0), [(0, 500), (1, 300), (4, 200)],
        [(Clothing, 60), (Electronics, 140)], [(Clothing, 300), (Electronics, 700)])
  {
    var c := Criteria(0, DayCount - 1, [Electronics, Clothing, Groceries, Books]);
    var tail, last := Sample[1..], [Sample[2]];
    assert tail[1..] == last && last[1..] == [];
    assert Filter(last, c) == last;
    assert Filter(tail, c) == tail;
    assert Filter(Sample, c) == Sample;
    SampleKpis();
    SampleDaily();
    SampleCategories();
  }

  /** KPIs of the whole sample: sales 1000, profit 200, margin 20 %. */
  lemma SampleKpis()
    ensures ComputeKpis(Sample) == Kpis(1000, 200, 20.0)
  {
    assert Sample[1..][1..] == [Sample[2]] && [Sample[2]][1..] == [];
    assert ColumnSum(Sample, SalesColumn) == 1000 && ColumnSum(Sample, ProfitColumn) == 200;
    assert Margin(1000, 200) == 20.0 by {
      assert 200.0 / 1000.0 == 0.2;
    }
  }

  /** Daily sales of the whole sample, in ascending day order. */
  lemma SampleDaily()
    ensures DailySales(Sample) == [(0, 500), (1, 300), (4, 200)]
  {
    var tail, last := Sample[1..], [Sample[2]];
    assert tail[1..] == last && last[1..] == [];
    assert GroupSum(last, ByDate, SalesColumn) == [(4, 200)];
    assert GroupSum(tail, ByDate, SalesColumn) == [(1, 300), (4, 200)];
  }

  /** Per-category profit and sales of the whole sample, Clothing before Electronics. */
  lemma SampleCategories()
    ensures CategoryProfit(Sample) == [(Clothing, 60), (Electronics, 140)]
    ensures CategorySales(Sample) == [(Clothing, 300), (Electronics, 700)]
  {
    var tail, last := Sample[1..], [Sample[2]];
    assert tail[1..] == last && last[1..] == [];
    assert GroupSum(last, ByCategory, ProfitColumn) == [(2, 40)];
    assert GroupSum(tail, ByCategory, ProfitColumn) == [(1, 60), (2, 40)];
    assert AddTo([(2, 40)], 2, 100) == [(2, 140)];
    assert GroupSum(Sample, ByCategory, ProfitColumn) == [(1, 60), (2, 140)];
    assert GroupSum(last, ByCategory, SalesColumn) == [(2, 200)];
    assert GroupSum(tail, ByCategory, SalesColumn) == [(1, 300), (2, 200)];
    assert AddTo([(2, 200)], 2, 500) == [(2, 700)];
    assert GroupSum(Sample, ByCategory, SalesColumn) == [(1, 300), (2, 700)];
    assert Label([(1, 60), (2, 140)]) == [(Clothing, 60), (Electronics, 140)];
    assert Label([(1, 300), (2, 700)]) == [(Clothing, 300), (Electronics, 700)];
  }
}
