/** The transaction record of the sales dashboard, the value domain the
    data generator draws from, and the column sums every view is built on. */
module Records {

  /** The four product categories the generator draws from. */
  datatype Category = Books | Clothing | Electronics | Groceries

  /** Position of a category in ascending order of its label
      ("Books" < "Clothing" < "Electronics" < "Groceries"), the order in
      which a group-by over the category column lists its groups. */
  function Rank(c: Category): (k: int)
    ensures 0 <= k < CategoryCount
  {
    match c
    case Books => 0
    case Clothing => 1
    case Electronics => 2
    case Groceries => 3
  }

  /** The category's label as it appears in the table. */
  function Name(c: Category): string {
    match c
    case Books => "Books"
    case Clothing => "Clothing"
    case Electronics => "Electronics"
    case Groceries => "Groceries"
  }

  /** Lexicographic order of labels, the order a sort of string keys uses. */
  predicate LabelBefore(a: string, b: string) {
    if a == [] then b != []
    else if b == [] then false
    else a[0] < b[0] || (a[0] == b[0] && LabelBefore(a[1..], b[1..]))
  }

  /** Ranks follow the lexicographic order of the labels. */
  lemma RankFollowsLabels(c: Category, d: Category)
    ensures Rank(c) < Rank(d) <==> LabelBefore(Name(c), Name(d))
  {
    var a, b := Name(c), Name(d);
    assert a[0] == "BCEG"[Rank(c)] && b[0] == "BCEG"[Rank(d)];
    if c == d {
      LabelBeforeIrreflexive(a);
    }
  }

  /** No label comes before itself. */
  lemma {:induction false} LabelBeforeIrreflexive(a: string)
    ensures !LabelBefore(a, a)
  {
    if a != [] {
      LabelBeforeIrreflexive(a[1..]);
    }
  }

  /** Distinct categories have distinct ranks. */
  lemma RankInjective(c: Category, d: Category)
    ensures Rank(c) == Rank(d) <==> c == d
  {
  }

  /** Inverse of Rank on 0 .. CategoryCount - 1. */
  function FromRank(k: int): (c: Category)
    ensures 0 <= k < CategoryCount ==> Rank(c) == k
  {
    if k <= 0 then Books
    else if k == 1 then Clothing
    else if k == 2 then Electronics
    else Groceries
  }

  const CategoryCount: int := 4

  /** Number of consecutive days the generator draws dates from. */
  const DayCount: int := 180

  /** Half-open value ranges of the generator's integer draws. */
  const MinSales: int := 100
  const MaxSalesExclusive: int := 2000
  const MinProfit: int := 20
  const MaxProfitExclusive: int := 500

  /** One row of the table: the date as a day offset from 2024-01-01. */
  datatype Record = Record(date: int, category: Category, sales: int, profit: int)

  /** A row the generator can produce: one of 180 days, and sales and
      profit inside the generator's ranges (upper bounds exclusive). */
  predicate WellFormed(r: Record)
    ensures WellFormed(r) ==> forall col :: Low(col) <= Value(r, col) <= High(col)
  {
    && 0 <= r.date < DayCount
    && MinSales <= r.sales < MaxSalesExclusive
    && MinProfit <= r.profit < MaxProfitExclusive
  }

  predicate AllWellFormed(rows: seq<Record>) {
    forall i :: 0 <= i < |rows| ==> WellFormed(rows[i])
  }

  /** The numeric columns that the dashboard sums. */
  datatype Column = SalesColumn | ProfitColumn

  function Value(r: Record, col: Column): int {
    match col
    case SalesColumn => r.sales
    case ProfitColumn => r.profit
  }

  /** Smallest and largest value a well-formed row holds in a column. */
  function Low(col: Column): int {
    match col
    case SalesColumn => MinSales
    case ProfitColumn => MinProfit
  }

  function High(col: Column): int {
    match col
    case SalesColumn => MaxSalesExclusive - 1
    case ProfitColumn => MaxProfitExclusive - 1
  }

  /** Sum of one column over the rows; the sum of no rows is 0. */
  function ColumnSum(rows: seq<Record>, col: Column): (total: int)
    ensures rows == [] ==> total == 0
    ensures (forall i :: 0 <= i < |rows| ==> Value(rows[i], col) >= 0) ==> total >= 0
  {
    if rows == [] then 0 else Value(rows[0], col) + ColumnSum(rows[1..], col)
  }

  /** The sum of a concatenation is the sum of the parts. */
  lemma {:induction false} ColumnSumAppend(a: seq<Record>, b: seq<Record>, col: Column)
    ensures ColumnSum(a + b, col) == ColumnSum(a, col) + ColumnSum(b, col)
  {
    if a == [] {
      assert a + b == b;
    } else {
      assert (a + b)[1..] == a[1..] + b;
      ColumnSumAppend(a[1..], b, col);
    }
  }

  /** Over well-formed rows each column sum lies between n times the
      column's smallest and n times its largest value. */
  lemma {:induction false} ColumnSumBounds(rows: seq<Record>, col: Column)
    requires AllWellFormed(rows)
    ensures Low(col) * |rows| <= ColumnSum(rows, col) <= High(col) * |rows|
  {
    if rows != [] {
      assert WellFormed(rows[0]);
      ColumnSumBounds(rows[1..], col);
    }
  }
}
