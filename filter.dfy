/** The dashboard's record filter: an inclusive date interval and a list of
    selected categories, applied as a row mask that keeps row order. */
module Filtering {
  import opened Records

  /** The sidebar's filter settings. Nothing requires startDate <= endDate. */
  datatype Criteria = Criteria(startDate: int, endDate: int, categories: seq<Category>)

  /** The boolean mask of one row: date in [startDate, endDate] and
      category among the selected ones. */
  predicate Matches(r: Record, c: Criteria)
    ensures Matches(r, c) ==> c.startDate <= c.endDate && c.categories != []
  {
    c.startDate <= r.date <= c.endDate && r.category in c.categories
  }

  /** s is obtained from t by deleting elements, keeping the order of the rest. */
  predicate IsSubsequence<T(==)>(s: seq<T>, t: seq<T>)
    decreases |t|
  {
    if s == [] then true
    else if t == [] then false
    else (s[0] == t[0] && IsSubsequence(s[1..], t[1..])) || IsSubsequence(s, t[1..])
  }

  /** The filtered table: the matching rows, in their original order. */
  function Filter(rows: seq<Record>, c: Criteria): (out: seq<Record>)
    ensures forall r :: r in out <==> r in rows && Matches(r, c)
    ensures IsSubsequence(out, rows)
    ensures |out| <= |rows|
  {
    if rows == [] then []
    else if Matches(rows[0], c) then [rows[0]] + Filter(rows[1..], c)
    else Filter(rows[1..], c)
  }

  /** Every row occurs in the result exactly as often as in the input when
      it matches, and not at all otherwise. */
  lemma {:induction false} FilterMultiplicity(rows: seq<Record>, c: Criteria, r: Record)
    ensures multiset(Filter(rows, c))[r] == if Matches(r, c) then multiset(rows)[r] else 0
  {
    if rows != [] {
      FilterMultiplicity(rows[1..], c, r);
      assert rows == [rows[0]] + rows[1..];
    }
  }

  /** Filtering distributes over concatenation, so the relative order of
      the surviving rows is that of the input. */
  lemma {:induction false} FilterAppend(a: seq<Record>, b: seq<Record>, c: Criteria)
    ensures Filter(a + b, c) == Filter(a, c) + Filter(b, c)
  {
    if a == [] {
      assert a + b == b;
    } else {
      assert (a + b)[0] == a[0];
      assert (a + b)[1..] == a[1..] + b;
      FilterAppend(a[1..], b, c);
    }
  }

  /** An empty category selection, or a start date after the end date,
      leaves no rows. */
  lemma {:induction false} FilterEmptyCriteria(rows: seq<Record>, c: Criteria)
    requires c.categories == [] || c.startDate > c.endDate
    ensures Filter(rows, c) == []
  {
    if rows != [] {
      FilterEmptyCriteria(rows[1..], c);
    }
  }

  /** c1 selects no row that c2 rejects: a sub-interval of dates and a
      subset of the categories. */
  predicate Narrower(c1: Criteria, c2: Criteria) {
    && c2.startDate <= c1.startDate
    && c1.endDate <= c2.endDate
    && forall k :: k in c1.categories ==> k in c2.categories
  }

  /** Filtering with narrower criteria equals filtering the wider result
      again, so the narrower result is a subsequence of the wider one and
      never longer. */
  lemma {:induction false} FilterNarrowing(rows: seq<Record>, c1: Criteria, c2: Criteria)
    requires Narrower(c1, c2)
    ensures Filter(rows, c1) == Filter(Filter(rows, c2), c1)
    ensures IsSubsequence(Filter(rows, c1), Filter(rows, c2))
    ensures |Filter(rows, c1)| <= |Filter(rows, c2)|
  {
    if rows != [] {
      FilterNarrowing(rows[1..], c1, c2);
      if Matches(rows[0], c2) {
        assert ([rows[0]] + Filter(rows[1..], c2))[1..] == Filter(rows[1..], c2);
      }
    }
  }

  /** Filtering an already filtered table with the same criteria changes nothing. */
  lemma {:induction false} FilterIdempotent(rows: seq<Record>, c: Criteria)
    ensures Filter(Filter(rows, c), c) == Filter(rows, c)
  {
    if rows != [] {
      FilterIdempotent(rows[1..], c);
      if Matches(rows[0], c) {
        assert ([rows[0]] + Filter(rows[1..], c))[1..] == Filter(rows[1..], c);
      }
    }
  }

  /** Selecting a subset of the categories never yields more rows. */
  lemma {:induction false} FilterCategorySubset(rows: seq<Record>, start: int, end: int, sub: seq<Category>, sup: seq<Category>)
    requires forall k :: k in sub ==> k in sup
    ensures |Filter(rows, Criteria(start, end, sub))| <= |Filter(rows, Criteria(start, end, sup))|
  {
    FilterNarrowing(rows, Criteria(start, end, sub), Criteria(start, end, sup));
  }

  /** The filter keeps generator-shaped rows generator-shaped. */
  lemma {:induction false} FilterWellFormed(rows: seq<Record>, c: Criteria)
    requires AllWellFormed(rows)
    ensures AllWellFormed(Filter(rows, c))
  {
    var out := Filter(rows, c);
    forall i | 0 <= i < |out| ensures WellFormed(out[i]) {
      assert out[i] in rows;
    }
  }
}
