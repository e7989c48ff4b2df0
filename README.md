# Sales dashboard: filter and aggregation pipeline

A Dafny model of the computational core of a single-page sales dashboard.
The dashboard holds a table of transactions. Each row has a date, a
product category, a sales amount and a profit amount. On every change of
the sidebar filters the page does the following:

- it keeps the rows whose date lies in an inclusive interval and whose
  category is among the selected ones, in their original order;
- it shows three KPI cards: total sales, total profit, and the profit
  margin in percent, which is 0 unless total sales are positive;
- it draws three charts from the filtered rows: sales per day (line),
  profit per category (bar) and sales per category (pie).

The model is written as functions and lemmas, because the source has no
loops and updates nothing in place.

- `records.dfy` (module `Records`): the record, the four categories, the
  generator's value ranges as the predicate `WellFormed`, and column sums.
- `filter.dfy` (module `Filtering`): the filter criteria and the row filter.
- `metrics.dfy` (module `Metrics`): the KPI triple and the guarded margin.
- `aggregation.dfy` (module `Aggregation`): one group-by-and-sum over an
  integer key (the day, or the category's alphabetical rank). The groups
  come out in ascending key order, the default of a pandas group-by. The
  daily, per-category profit and per-category sales views are built on it.
- `dashboard.dfy` (module `Dashboard`): one refresh of the page, and two
  worked examples on a three-row table.

Modelling choices:

- Dates are integer day offsets from 2024-01-01. The generator's 180 days
  are offsets 0 to 179.
- Categories are an enumeration. Their rank follows the alphabetical order
  of the labels (Books, Clothing, Electronics, Groceries). That is the
  order in which a group-by over the category column lists its groups.
- The margin is a `real`: `(profit / sales) * 100` exactly, without
  floating-point rounding.
- Sums are unbounded integers. Over at most 500 generated rows no sum comes
  near the 64-bit range, so pandas' integer width plays no part.

Two views are shaped by the libraries, not by the script:

- The pie chart receives the filtered rows themselves (app.py:66), and the
  charting library sums sales per category. The model gives those
  per-category sales totals.
- The per-category profit view comes from a pandas group-by (app.py:61).
  This lists categories in sorted label order, not in first-seen order.

## Model

| member | source | states |
|---|---|---|
| `Records.Rank` | app.py:61 | Each category gets a rank from 0 to 3, following the alphabetical order of its label: Books, Clothing, Electronics, Groceries. A group-by over the category strings lists its groups in this order. |
| `Records.RankFollowsLabels` | app.py:61 | One category ranks below another exactly when its label comes first in lexicographic order. |
| `Records.WellFormed` | app.py:16-19 | A generated row has a date among the 180 days, sales in [100, 2000) and profit in [20, 500). Every column value of such a row therefore lies between the column's least and greatest value. |
| `Records.ColumnSum` | app.py:43-44 | The pandas `.sum()` of one column: 0 over no rows, and non-negative when every value in the column is non-negative. |
| `Records.ColumnSumAppend` | app.py:43-44 | The sum of a column over two tables appended is the sum of the two sums. |
| `Records.ColumnSumBounds` | app.py:16-19 | Over generator-shaped rows, a column sum lies between n times the column's least value and n times its greatest value: sales in [100, 1999], profit in [20, 499]. |
| `Filtering.Matches` | app.py:32-35 | The boolean mask of one row: its date is in [start, end] and its category is selected. It can hold only when start <= end and the selection is not empty. |
| `Filtering.Filter` | app.py:32-36 | A row appears in the result exactly when it appears in the input, its date is in [start, end] and its category is selected. The result is a subsequence of the input, so order is kept. It is never longer than the input. |
| `Filtering.FilterMultiplicity` | app.py:32-36 | A matching row occurs in the result as often as in the input. A non-matching row does not occur at all. |
| `Filtering.FilterAppend` | app.py:32-36 | Filtering distributes over concatenation, so surviving rows keep their relative order. |
| `Filtering.FilterEmptyCriteria` | app.py:33-35 | An empty category selection, or a start date after the end date, gives an empty result. |
| `Filtering.FilterNarrowing` | app.py:32-36 | Filtering with a narrower date interval and a subset of the categories equals filtering the wider result again. The narrower result is therefore a subsequence of the wider one and no longer. |
| `Filtering.FilterIdempotent` | app.py:32-36 | Filtering an already filtered table with the same criteria returns it unchanged. |
| `Filtering.FilterCategorySubset` | app.py:35 | With the same dates, a subset of the categories never gives more rows. |
| `Filtering.FilterWellFormed` | app.py:32-36 | Filtering a generator-shaped table gives a generator-shaped table. |
| `Metrics.Margin` | app.py:45 | The margin is 0 when total sales are not positive. Otherwise the margin times total sales equals 100 times total profit. |
| `Metrics.ComputeKpis` | app.py:43-45 | Total sales and total profit are the column sums of the filtered rows, and the margin is the guarded percentage of the two. With no rows all three are 0. |
| `Metrics.SumsRatio` | app.py:43-44 | On nonempty generator-shaped rows, total sales are positive and 100 times total profit lies above total sales and at most 499 times total sales. |
| `Metrics.MarginBounds` | app.py:43-45 | On generator-shaped rows the margin is never negative. Once a row survives, total sales are positive and the margin lies in (1, 499]. |
| `Aggregation.Select` | app.py:56-61 | The rows of one group are exactly the rows whose key (day, or category rank) equals the group's key. |
| `Aggregation.RowsOf` | app.py:61 | The rows of one category are exactly the rows whose category is that category. |
| `Aggregation.SelectByCategory` | app.py:61 | The group under a category's rank is exactly that category's rows, in input order. |
| `Aggregation.AddTo` | app.py:56 | Merging one value into a strictly ascending (key, total) series keeps it strictly ascending. Afterwards it lists exactly the old keys plus the new one. |
| `Aggregation.AddToLookup` | app.py:56 | After merging v under key k, the total under k has grown by v and every other key's total is unchanged. |
| `Aggregation.AddToSum` | app.py:56 | Merging v raises the sum of all group totals by v. |
| `Aggregation.GroupSum` | app.py:56-61 | The group-by series is strictly ascending in its key. It lists exactly the keys that occur in the rows. Under each key it holds the column sum of that key's rows. The group totals add up to the column sum of all rows. |
| `Aggregation.LookupAt` | app.py:56 | In a strictly ascending series, the total looked up under a listed key is that entry's value. |
| `Aggregation.GroupSumEntries` | app.py:56-61 | Every entry of a group-by series holds the column sum of the rows in its group. |
| `Aggregation.AscendingLength` | app.py:56-61 | A strictly ascending series whose keys lie in [lo, hi) has at most hi - lo entries. |
| `Aggregation.DailySales` | app.py:56 | The daily series has one entry per distinct date of the rows, in ascending date order. Each entry is that day's sales total, and the entries add up to total sales. |
| `Aggregation.DailySalesLength` | app.py:56 | On generator-shaped rows the daily series has at most 180 entries. |
| `Aggregation.CategoryListed` | app.py:61 | A category is listed in a per-category series exactly when some row has that category. |
| `Aggregation.CategoryTotals` | app.py:61 | A per-category series lists each category present in the rows exactly once, at most four entries, in alphabetical order. Each entry is the column sum of that category's rows, and the entries add up to the column sum of all rows. |
| `Aggregation.CategoryProfit` | app.py:61 | Each bar holds the profit of its category's rows, and the bars add up to total profit. |
| `Aggregation.CategorySales` | app.py:66 | Each pie slice holds the sales of its category's rows, and the slices add up to total sales. |
| `Dashboard.Refresh` | app.py:32-66 | The page shows the filtered rows. The daily series and the pie's per-category sales add up to the sales card. The bar chart's per-category profit adds up to the profit card. |
| `Dashboard.RefreshEmpty` | app.py:32-66 | An empty selection or an inverted interval shows no rows, zero KPIs and empty charts. |
| `Dashboard.RefreshMarginBounds` | app.py:16-45 | On a generator-shaped table the margin card is non-negative. Once a row survives the filter, it lies in (1, 499]. |
| `Dashboard.SampleElectronicsFirstTwoDays` | app.py:32-66 | Three sample rows, filtered to the first two days and Electronics: only the first row survives. Sales 500, profit 100, margin 20, and one entry in each chart. |
| `Dashboard.SampleKpis` | app.py:43-45 | The KPIs of the three sample rows are sales 1000, profit 200 and margin 20. |
| `Dashboard.SampleDaily` | app.py:56 | The daily series of the sample lists days 0, 1 and 4 in that order, with sales 500, 300 and 200. |
| `Dashboard.SampleCategories` | app.py:61-66 | The sample's per-category views list Clothing before Electronics. The two Electronics rows merge to profit 140 and sales 700. |
| `Dashboard.SampleEverything` | app.py:32-66 | The same rows filtered to everything: all rows survive, days come in ascending order, and both Electronics rows are merged under one category. Categories come alphabetically: Clothing, then Electronics. |

## Left out

- Random generation of the table (app.py:13-21): it is nondeterministic and calls a foreign library. Only its value ranges are kept, as `Records.WellFormed`: 180 days, sales in [100, 2000), profit in [20, 500), with exclusive upper bounds. The four categories are the enumeration. The table size of 500 is not part of the predicate.
- Process-wide caching of the generated table (app.py:11): this is state managed by the framework.
- Page setup, the sidebar widgets and their defaults (minimum and maximum date, all categories selected), the title, the caption, the columns, the KPI cards, the expander and the table display (app.py:8, 26-29, 39-40, 47-50, 53-71): this is user-interface rendering. The filter settings enter the model as a `Filtering.Criteria` value.
- Currency and percentage formatting of the KPI cards (app.py:48-50): this is floating-point string formatting.
- Floating-point arithmetic of the margin (app.py:45): the margin is an exact `real`.
- Chart construction and rendering (app.py:56-67), including the pie chart's conversion of category totals into shares and its slice order: this happens inside the charting library. The model gives the totals the charts are drawn from.
- Date parsing with `pd.to_datetime` (app.py:33-34): dates are day offsets, which compare the same way as midnight timestamps.
- Category labels as free strings: the model's categories are the four generated ones. A selection can therefore name only those four, and the sidebar offers no others (app.py:29).
