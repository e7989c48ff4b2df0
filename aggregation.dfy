/** The chart views: a group-by over one key column summing one value
    column, with the groups listed in ascending key order (the default of
    a pandas group-by). */
module Aggregation {
  import opened Records

  /** The key columns the dashboard groups by. */
  datatype GroupKey = ByDate | ByCategory

  /** A row's group key as an integer: the day offset, or the category's
      alphabetical rank. */
  function KeyOf(r: Record, key: GroupKey): int {
    match key
    case ByDate => r.date
    case ByCategory => Rank(r.category)
  }

  /** The rows of the group with key k, in their original order. */
  function Select(rows: seq<Record>, key: GroupKey, k: int): (out: seq<Record>)
    ensures forall r :: r in out <==> r in rows && KeyOf(r, key) == k
  {
    if rows == [] then []
    else (if KeyOf(rows[0], key) == k then [rows[0]] else []) + Select(rows[1..], key, k)
  }

  /** The rows of category c, in their original order. */
  function RowsOf(rows: seq<Record>, c: Category): (out: seq<Record>)
    ensures forall r :: r in out <==> r in rows && r.category == c
  {
    if rows == [] then []
    else (if rows[0].category == c then [rows[0]] else []) + RowsOf(rows[1..], c)
  }

  /** The category group keyed by c's rank is exactly the rows of category c. */
  lemma {:induction false} SelectByCategory(rows: seq<Record>, c: Category)
    ensures Select(rows, ByCategory, Rank(c)) == RowsOf(rows, c)
  {
    if rows != [] {
      RankInjective(rows[0].category, c);
      SelectByCategory(rows[1..], c);
    }
  }

  /** Sum of the values of a (key, value) series. */
  function SumValues<K>(g: seq<(K, int)>): int {
    if g == [] then 0 else g[0].1 + SumValues(g[1..])
  }

  /** Keys strictly increase along the series, so no key occurs twice. */
  predicate StrictlyAscending(g: seq<(int, int)>) {
    forall i, j :: 0 <= i < j < |g| ==> g[i].0 < g[j].0
  }

  /** The series lists key k. */
  predicate HasKey<K(==)>(g: seq<(K, int)>, k: K) {
    exists i :: 0 <= i < |g| && g[i].0 == k
  }

  /** Some row has key k. */
  predicate Occurs(rows: seq<Record>, key: GroupKey, k: int) {
    exists r :: r in rows && KeyOf(r, key) == k
  }

  /** Some row belongs to category c. */
  predicate HasCategory(rows: seq<Record>, c: Category) {
    exists r :: r in rows && r.category == c
  }

  /** Total of the values listed under key k (0 when k is absent). */
  function Lookup(g: seq<(int, int)>, k: int): int {
    if g == [] then 0 else (if g[0].0 == k then g[0].1 else 0) + Lookup(g[1..], k)
  }

  /** Adds v to the group k of an ascending series, opening the group in
      its sorted place when k is new. */
  function AddTo(g: seq<(int, int)>, k: int, v: int): (g': seq<(int, int)>)
    requires StrictlyAscending(g)
    ensures StrictlyAscending(g')
    ensures forall k' :: HasKey(g', k') <==> HasKey(g, k') || k' == k
  {
    if g == [] then
      assert [(k, v)][0].0 == k;
      [(k, v)]
    else if g[0].0 == k then
      var g' := [(k, g[0].1 + v)] + g[1..];
      assert g'[1..] == g[1..];
      assert forall i :: 0 <= i < |g| ==> g'[i].0 == g[i].0;
      g'
    else if k < g[0].0 then
      assert forall k' :: HasKey(g, k') ==> k < k' by {
        forall k' | HasKey(g, k') ensures k < k' {
          var i :| 0 <= i < |g| && g[i].0 == k';
          assert i == 0 || g[0].0 < g[i].0;
        }
      }
      HasKeyCons((k, v), g);
      [(k, v)] + g
    else
      var rest := AddTo(g[1..], k, v);
      assert forall k' :: HasKey(rest, k') ==> g[0].0 < k' by {
        forall k' | HasKey(rest, k') ensures g[0].0 < k' {
          if k' != k {
            assert HasKey(g[1..], k');
            var i :| 0 <= i < |g[1..]| && g[1..][i].0 == k';
            assert g[i + 1].0 == k';
          }
        }
      }
      forall j | 0 <= j < |rest| ensures g[0].0 < rest[j].0 {
        assert HasKey(rest, rest[j].0);
      }
      AscendingCons(g[0], rest);
      HasKeyCons(g[0], rest);
      HasKeyCons(g[0], g[1..]);
      assert [g[0]] + g[1..] == g;
      [g[0]] + rest
  }

  /** An entry below every key of an ascending series may be put in front of it. */
  lemma AscendingCons(x: (int, int), g: seq<(int, int)>)
    requires StrictlyAscending(g)
    requires forall j :: 0 <= j < |g| ==> x.0 < g[j].0
    ensures StrictlyAscending([x] + g)
  {
    var g' := [x] + g;
    forall i, j | 0 <= i < j < |g'| ensures g'[i].0 < g'[j].0 {
      assert g'[j] == g[j - 1];
      if i > 0 {
        assert g'[i] == g[i - 1];
      }
    }
  }

  /** Adding v under k raises the total under k by v and leaves every other key's total. */
  lemma {:induction false} AddToLookup(g: seq<(int, int)>, k: int, v: int, k': int)
    requires StrictlyAscending(g)
    ensures Lookup(AddTo(g, k, v), k') == Lookup(g, k') + (if k' == k then v else 0)
  {
    if g != [] && g[0].0 != k && k > g[0].0 {
      AddToLookup(g[1..], k, v, k');
      assert ([g[0]] + AddTo(g[1..], k, v))[1..] == AddTo(g[1..], k, v);
    } else if g != [] && g[0].0 == k {
      assert ([(k, g[0].1 + v)] + g[1..])[1..] == g[1..];
    } else if g != [] {
      assert ([(k, v)] + g)[1..] == g;
    }
  }

  /** Adding v under any key raises the sum of the series by v. */
  lemma {:induction false} AddToSum(g: seq<(int, int)>, k: int, v: int)
    requires StrictlyAscending(g)
    ensures SumValues(AddTo(g, k, v)) == SumValues(g) + v
  {
    if g != [] && g[0].0 != k && k > g[0].0 {
      AddToSum(g[1..], k, v);
      assert ([g[0]] + AddTo(g[1..], k, v))[1..] == AddTo(g[1..], k, v);
    } else if g != [] && g[0].0 == k {
      assert ([(k, g[0].1 + v)] + g[1..])[1..] == g[1..];
    } else if g != [] {
      assert ([(k, v)] + g)[1..] == g;
    }
  }

  /** The keys of x followed by g are x's key and the keys of g. */
  lemma HasKeyCons<K>(x: (K, int), g: seq<(K, int)>)
    ensures forall k :: HasKey([x] + g, k) <==> x.0 == k || HasKey(g, k)
  {
    var g' := [x] + g;
    assert g'[0] == x;
    assert forall i :: 0 <= i < |g| ==> g'[i + 1] == g[i];
  }

  /** Group the rows by one key and sum one column per group. The series
      lists exactly the keys that occur in the rows, in ascending order,
      each with the column total of its group; the group totals add up to
      the column total of all rows. */
  function GroupSum(rows: seq<Record>, key: GroupKey, col: Column): (g: seq<(int, int)>)
    ensures StrictlyAscending(g)
    ensures forall k :: HasKey(g, k) <==> Occurs(rows, key, k)
    ensures forall k :: Lookup(g, k) == ColumnSum(Select(rows, key, k), col)
    ensures SumValues(g) == ColumnSum(rows, col)
  {
    if rows == [] then []
    else
      var g0 := GroupSum(rows[1..], key, col);
      var g := AddTo(g0, KeyOf(rows[0], key), Value(rows[0], col));
      AddToSum(g0, KeyOf(rows[0], key), Value(rows[0], col));
      assert forall k :: Occurs(rows, key, k) <==> Occurs(rows[1..], key, k) || KeyOf(rows[0], key) == k by {
        forall k | Occurs(rows, key, k) ensures Occurs(rows[1..], key, k) || KeyOf(rows[0], key) == k {
          var r :| r in rows && KeyOf(r, key) == k;
          assert r == rows[0] || r in rows[1..];
        }
        forall k | KeyOf(rows[0], key) == k ensures Occurs(rows, key, k) {
          assert rows[0] in rows;
        }
      }
      forall k ensures Lookup(g, k) == ColumnSum(Select(rows, key, k), col) {
        var head := if KeyOf(rows[0], key) == k then [rows[0]] else [];
        AddToLookup(g0, KeyOf(rows[0], key), Value(rows[0], col), k);
        ColumnSumAppend(head, Select(rows[1..], key, k), col);
      }
      g
  }

  /** In an ascending series the entry under a listed key is its value. */
  lemma {:induction false} LookupAt(g: seq<(int, int)>, i: int)
    requires StrictlyAscending(g)
    requires 0 <= i < |g|
    ensures Lookup(g, g[i].0) == g[i].1
  {
    if i == 0 {
      LookupAbsent(g[1..], g[0].0);
    } else {
      LookupAt(g[1..], i - 1);
    }
  }

  /** A key below every key of the series totals 0. */
  lemma {:induction false} LookupAbsent(g: seq<(int, int)>, k: int)
    requires forall i :: 0 <= i < |g| ==> k < g[i].0
    ensures Lookup(g, k) == 0
  {
    if g != [] {
      LookupAbsent(g[1..], k);
    }
  }

  /** An ascending series whose keys lie in [lo, hi) has at most hi - lo entries. */
  lemma {:induction false} AscendingLength(g: seq<(int, int)>, lo: int, hi: int)
    requires StrictlyAscending(g)
    requires forall i :: 0 <= i < |g| ==> lo <= g[i].0 < hi
    ensures |g| <= if lo <= hi then hi - lo else 0
  {
    if g != [] {
      AscendingLength(g[1..], g[0].0 + 1, hi);
    }
  }

  /** Every listed entry of a group-by holds the column total of its group. */
  lemma GroupSumEntries(rows: seq<Record>, key: GroupKey, col: Column, g: seq<(int, int)>)
    requires g == GroupSum(rows, key, col)
    ensures forall i :: 0 <= i < |g| ==> g[i].1 == ColumnSum(Select(rows, key, g[i].0), col)
  {
    forall i | 0 <= i < |g| ensures g[i].1 == ColumnSum(Select(rows, key, g[i].0), col) {
      LookupAt(g, i);
    }
  }

  /** The line chart's data: one (day, sales total) entry per distinct day
      of the rows, in ascending day order, the totals adding up to the sales
      total of the rows. */
  function DailySales(rows: seq<Record>): (g: seq<(int, int)>)
    ensures StrictlyAscending(g)
    ensures forall d :: HasKey(g, d) <==> exists r :: r in rows && r.date == d
    ensures forall i :: 0 <= i < |g| ==> g[i].1 == ColumnSum(Select(rows, ByDate, g[i].0), SalesColumn)
    ensures SumValues(g) == ColumnSum(rows, SalesColumn)
  {
    var g := GroupSum(rows, ByDate, SalesColumn);
    GroupSumEntries(rows, ByDate, SalesColumn, g);
    assert forall d :: Occurs(rows, ByDate, d) <==> exists r :: r in rows && r.date == d;
    g
  }

  /** Over generator-shaped rows the daily series has at most 180 entries. */
  lemma DailySalesLength(rows: seq<Record>)
    requires AllWellFormed(rows)
    ensures |DailySales(rows)| <= DayCount
  {
    var g := DailySales(rows);
    forall i | 0 <= i < |g| ensures 0 <= g[i].0 < DayCount {
      assert HasKey(g, g[i].0);
      var r :| r in rows && r.date == g[i].0;
      var j :| 0 <= j < |rows| && rows[j] == r;
      assert WellFormed(rows[j]);
    }
    AscendingLength(g, 0, DayCount);
  }

  /** Tags each key of a category series with its category. */
  function Label(g: seq<(int, int)>): (t: seq<(Category, int)>)
    ensures |t| == |g|
    ensures forall i :: 0 <= i < |g| ==> t[i] == (FromRank(g[i].0), g[i].1)
    ensures SumValues(t) == SumValues(g)
  {
    if g == [] then [] else [(FromRank(g[0].0), g[0].1)] + Label(g[1..])
  }

  /** The keys of a category group-by are category ranks. */
  lemma CategoryKeysInRange(rows: seq<Record>, col: Column, g: seq<(int, int)>)
    requires g == GroupSum(rows, ByCategory, col)
    ensures forall i :: 0 <= i < |g| ==> 0 <= g[i].0 < CategoryCount
  {
    forall i | 0 <= i < |g| ensures 0 <= g[i].0 < CategoryCount {
      assert HasKey(g, g[i].0);
    }
  }

  /** A category is listed after labelling exactly when some row has it. */
  lemma CategoryListed(rows: seq<Record>, col: Column, c: Category)
    ensures HasKey(Label(GroupSum(rows, ByCategory, col)), c) <==> HasCategory(rows, c)
  {
    var g := GroupSum(rows, ByCategory, col);
    var t := Label(g);
    CategoryKeysInRange(rows, col, g);
    if HasKey(t, c) {
      var i :| 0 <= i < |t| && t[i].0 == c;
      assert FromRank(g[i].0) == c;
      assert Rank(c) == g[i].0;
      assert HasKey(g, Rank(c));
      assert Occurs(rows, ByCategory, Rank(c));
      var r :| r in rows && Rank(r.category) == Rank(c);
      RankInjective(r.category, c);
    }
    if HasCategory(rows, c) {
      var r :| r in rows && r.category == c;
      assert KeyOf(r, ByCategory) == Rank(c);
      assert Occurs(rows, ByCategory, Rank(c));
      assert HasKey(g, Rank(c));
      var i :| 0 <= i < |g| && g[i].0 == Rank(c);
      assert t[i].0 == FromRank(Rank(c));
    }
  }

  /** A per-category total of one column: one entry per category present
      in the rows, at most four, in alphabetical order of the labels, each
      with the column total of the rows of that category; the totals add up
      to the column total of all rows. */
  function CategoryTotals(rows: seq<Record>, col: Column): (t: seq<(Category, int)>)
    ensures forall i, j :: 0 <= i < j < |t| ==> Rank(t[i].0) < Rank(t[j].0)
    ensures forall c :: HasKey(t, c) <==> HasCategory(rows, c)
    ensures forall i :: 0 <= i < |t| ==> t[i].1 == ColumnSum(RowsOf(rows, t[i].0), col)
    ensures SumValues(t) == ColumnSum(rows, col)
    ensures |t| <= CategoryCount
  {
    var g := GroupSum(rows, ByCategory, col);
    GroupSumEntries(rows, ByCategory, col, g);
    CategoryKeysInRange(rows, col, g);
    AscendingLength(g, 0, CategoryCount);
    forall c ensures HasKey(Label(g), c) <==> HasCategory(rows, c) {
      CategoryListed(rows, col, c);
    }
    var t := Label(g);
    forall i | 0 <= i < |t| ensures t[i].1 == ColumnSum(RowsOf(rows, t[i].0), col) {
      SelectByCategory(rows, t[i].0);
      assert Rank(t[i].0) == g[i].0;
    }
    t
  }

  /** The bar chart's data: profit per category. */
  function CategoryProfit(rows: seq<Record>): (t: seq<(Category, int)>)
    ensures SumValues(t) == ColumnSum(rows, ProfitColumn)
    ensures forall i :: 0 <= i < |t| ==> t[i].1 == ColumnSum(RowsOf(rows, t[i].0), ProfitColumn)
  {
    CategoryTotals(rows, ProfitColumn)
  }

  /** The pie chart's data before normalisation: sales per category. */
  function CategorySales(rows: seq<Record>): (t: seq<(Category, int)>)
    ensures SumValues(t) == ColumnSum(rows, SalesColumn)
    ensures forall i :: 0 <= i < |t| ==> t[i].1 == ColumnSum(RowsOf(rows, t[i].0), SalesColumn)
  {
    CategoryTotals(rows, SalesColumn)
  }
}
