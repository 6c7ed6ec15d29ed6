# Restaurant delivery dashboard: filters and aggregates

This project models the computational core of a Streamlit dashboard for DoorDash and GrubHub
exports (`doordash_dashboard_v2.py`). The dashboard loads CSV tables, narrows them with the
sidebar selections and reduces them to metric cards, per-store roll-ups, top-N rankings and a
campaign drill-down. The model treats a table as a sequence of row datatypes. Money, ROAS and
the summed counts are `real`; dates are day numbers.

Modules:

- `Common`: `Day`, `Option`, `Result` and the literal `"All"`, which switches a selector off.
- `Tables`: boolean-mask filtering (`Where`) and column extraction (`Column`).
- `StoreNames`: the store selectors, i.e. `['All'] + sorted(unique(...))`.
- `Aggregates`: column sums, the guarded means and ratios, the NaT-skipping date minimum and
  maximum, and the unguarded per-store division (`Quotient`: finite, ±inf or NaN).
- `Grouping`: `groupby(key).agg(...)`. One group per distinct key, in ascending key order, the
  same order as the store selector.
- `Ranking`: `sort_values(..., ascending=False).head(n)` and `nlargest(n, ...)`. Both become
  `NLargest`, the first `n` rows of a descending sort.
- `DoorDash`: the marketing and financial filters and the metric cards.
- `DoorDashRollups`: the two top-10 store tables, the campaign drill-down and the ROAS
  highlight.
- `GrubHub`: `apply_grubhub_filters`, the financial and operations cards, the store
  performance table and the top-10 and top-15 rankings.

Each filter is written twice.

- A method (`FilterMarketing`, `FilterFinancial`, `ApplyGrubHubFilters`) narrows the table one
  active clause at a time, as the dashboard does.
- A function states the same result as a single conjunctive predicate.

The method's postcondition says the two agree. The lemmas then state what the result contains.

Behaviours of the code that the model reproduces deliberately:

- The DoorDash marketing "Average Order Value" card is the mean of the per-row averages
  (`doordash_dashboard_v2.py:556`), not total sales over total orders. The GrubHub card is
  sales over orders (`:254`). Both definitions are modelled, and two scenario lemmas show that
  they differ on the same data.
- The derived per-store columns of the GrubHub store table (`:344-345`) are plain column
  divisions. A zero denominator gives inf or NaN, not 0. `Quotient` models this.
- Ties in the top-N tables: `sort_values` (`:537`, `:602`) uses a sort that is not stable by
  default, so the code fixes no order among tied rows. The model promises none either.
- A GrubHub table that has `start_date` but not `end_date` raises `KeyError` when a date pair
  is selected (`:209-212`). `GrubHubFiltered` returns `Err(KeyError("end_date"))` in exactly
  that case.
- With the default GrubHub date range, a row whose start or end date failed to parse (NaT) is
  dropped, because a comparison with NaT is false. `GrubHubDefaultRangeDropsUndated` states
  this.

## Model

| member | source | states |
|---|---|---|
| Tables.Where | doordash_dashboard_v2.py:478-481 | A boolean-mask filter keeps exactly the rows satisfying the mask and is no longer than its input |
| Tables.WhereIsSubsequence | doordash_dashboard_v2.py:478-481 | A mask keeps rows in their original order: the result is a subsequence of the table |
| Tables.WhereCounts | doordash_dashboard_v2.py:478-481 | A mask keeps every copy of a matching row and no copy of any other row |
| Tables.WhereNarrows | doordash_dashboard_v2.py:505-506 | A stronger mask gives a subsequence of the weaker mask's result |
| Tables.WhereAnd | doordash_dashboard_v2.py:477-488 | Masking by p and then by q equals masking once by their conjunction |
| StoreNames.StoreOptionsSpec | doordash_dashboard_v2.py:191 | The store selector is 'All' followed by each distinct store name exactly once, strictly ascending, and nothing else (also lines 454 and 471) |
| StoreNames.StoreOptions | doordash_dashboard_v2.py:454 | `['All'] + sorted(unique(...))`: 'All' first, then exactly the store names of the column (also lines 191 and 471) |
| StoreNames.SortedUniqueAscending | doordash_dashboard_v2.py:454 | `sorted(unique(...))` is strictly ascending in code-point order |
| StoreNames.DistinctLength | doordash_dashboard_v2.py:471 | A list without repeats has as many entries as distinct elements |
| Aggregates.Sum | doordash_dashboard_v2.py:516 | `df[col].sum()`, 0 on an empty table; its laws are SumAppend, SumPermutation and SumMonotone (also lines 230 and 551) |
| Aggregates.SumAppend | doordash_dashboard_v2.py:516 | A column sum over two concatenated tables is the sum of the two sums |
| Aggregates.SumPermutation | doordash_dashboard_v2.py:516 | A column sum does not depend on row order |
| Aggregates.SumMonotone | doordash_dashboard_v2.py:298-325 | A column that is pointwise no larger has a sum no larger |
| Aggregates.SumAtLeast | doordash_dashboard_v2.py:230 | n rows each at least lo sum to at least n·lo |
| Aggregates.MeanOrZero | doordash_dashboard_v2.py:552 | `mean() if len > 0 else 0`: 0 on an empty table, otherwise mean times row count equals the sum |
| Aggregates.MeanWithinBounds | doordash_dashboard_v2.py:552 | A mean lies between the smallest and the largest value averaged |
| Aggregates.MeanAtLeast | doordash_dashboard_v2.py:664 | A mean of values all at least lo is at least lo |
| Aggregates.MeanBelow | doordash_dashboard_v2.py:664 | A mean of values all below hi is below hi |
| Aggregates.SafeRatio | doordash_dashboard_v2.py:254 | `num / den if den > 0 else 0`: 0 for a non-positive denominator, otherwise the exact quotient |
| Aggregates.Percent | doordash_dashboard_v2.py:273 | `part / whole * 100 if whole > 0 else 0`: 0 for a non-positive whole, otherwise 100·part/whole |
| Aggregates.PercentBounded | doordash_dashboard_v2.py:307 | A part between 0 and the whole is between 0 and 100 percent |
| Aggregates.Earliest | doordash_dashboard_v2.py:175 | The column minimum skips NaT: it is absent iff no date parsed, it is one of the dates, and no date is earlier |
| Aggregates.Latest | doordash_dashboard_v2.py:176 | The column maximum skips NaT: it is absent iff no date parsed, it is one of the dates, and no date is later |
| Aggregates.Divide | doordash_dashboard_v2.py:344 | Unguarded column division: finite iff the denominator is non-zero, NaN for 0/0, +inf for positive over 0 |
| Aggregates.ScaleDivide | doordash_dashboard_v2.py:345 | `abs(c) / s * 100` equals `100·abs(c) / s` as an unguarded quotient, inf and NaN included |
| Aggregates.Abs | doordash_dashboard_v2.py:265 | The magnitude is non-negative and equals x or -x |
| Grouping.GroupBy | doordash_dashboard_v2.py:533 | `groupby('Store name')`: one group per sorted distinct key holding that key's rows; stated by the GroupBy lemmas below |
| Grouping.Rollup | doordash_dashboard_v2.py:533-536 | `groupby(key).agg(...)`: one aggregated row per group; stated by RollupShape |
| Grouping.GroupByCount | doordash_dashboard_v2.py:533-536 | `groupby` yields one group per distinct key |
| Grouping.GroupByAscending | doordash_dashboard_v2.py:533-536 | Group keys come out strictly ascending |
| Grouping.GroupByCovers | doordash_dashboard_v2.py:533-536 | Every row's key has a group |
| Grouping.GroupByMembers | doordash_dashboard_v2.py:533-536 | Each group holds exactly the rows with its key, and at least one |
| Grouping.GroupByPartition | doordash_dashboard_v2.py:533-536 | Summing a column per group and adding the group sums gives the column sum of the whole table |
| Grouping.RollupShape | doordash_dashboard_v2.py:596-601 | An aggregated group table has one row per distinct key, no key twice, every row's key present, and each row aggregated from exactly its key's rows |
| Ranking.SortDescendingSorted | doordash_dashboard_v2.py:537 | The descending sort is sorted by the column |
| Ranking.SortDescending | doordash_dashboard_v2.py:624 | `sort_values(col, ascending=False)`: a permutation of the table, same length (sortedness in SortDescendingSorted; also line 537) |
| Ranking.PrefixDominates | doordash_dashboard_v2.py:537 | `head(k)` of a descending table is a sub-multiset and beats every row cut off |
| Ranking.NLargest | doordash_dashboard_v2.py:351 | min(n, rows) rows, largest first, drawn from the table, none smaller than a row left out |
| DoorDash.MarketingFiltered | doordash_dashboard_v2.py:475-488 | A row survives the marketing filter iff it is in the table and meets every active clause (date range, self-serve, store) |
| DoorDash.FilterMarketing | doordash_dashboard_v2.py:475-488 | Narrowing clause by clause (date pair, self-serve unless 'All', store unless 'All') gives exactly the conjunctive filter |
| DoorDash.MarketingFilterSound | doordash_dashboard_v2.py:475-488 | The result keeps row order, and every kept row lies in the range, has the chosen self-serve flag (`== 'True'`) and the chosen store |
| DoorDash.MarketingFilterIdentity | doordash_dashboard_v2.py:440-447 | With the default range [min date, max date] and both selectors at 'All', the table comes back unchanged |
| DoorDash.MarketingReversedRangeIsEmpty | doordash_dashboard_v2.py:477-481 | A range whose start is after its end keeps no row |
| DoorDash.FinancialFiltered | doordash_dashboard_v2.py:491-506 | A row survives iff it is a delivered order that meets the active date and store clauses |
| DoorDash.FilterFinancial | doordash_dashboard_v2.py:491-506 | The delivered-order mask, then the date pair, then the store, gives exactly the conjunctive filter |
| DoorDash.FinancialStoreNarrows | doordash_dashboard_v2.py:505-506 | Selecting a store gives a subsequence of the result with the store at 'All' |
| DoorDash.FinancialFilterDefault | doordash_dashboard_v2.py:461-468 | With the default range and store 'All', the only rows dropped are those that are not delivered orders |
| DoorDash.FinancialMetricsOf | doordash_dashboard_v2.py:516-517 | The overall-subtotal and net-total cards are the column sums over the filtered orders, 0 on an empty table |
| DoorDash.MarketingMetricsOf | doordash_dashboard_v2.py:551-556 | Sales, orders, new customers and new DP customers are column sums; average ROAS and average order value are per-row means; all cards are 0 on an empty table |
| DoorDash.AverageRoasWithinBounds | doordash_dashboard_v2.py:552 | Average ROAS lies between the smallest and the largest campaign ROAS |
| DoorDash.MarketingAverageOrderValueIsRowMean | doordash_dashboard_v2.py:556 | On rows with per-row values 10 and 15, the marketing card shows 12.5, whereas sales over orders would be 40/3 |
| DoorDash.FinancialCardsScenario | doordash_dashboard_v2.py:516-517 | Two delivered orders and a refund give subtotal 150 and net total 135: the refund is excluded |
| DoorDashRollups.FinancialTopStores | doordash_dashboard_v2.py:532-537 | The top-stores table exists iff the store selector is 'All', has at most 10 rows and is sorted by subtotal |
| DoorDashRollups.FinancialStorePerformance | doordash_dashboard_v2.py:533-536 | The per-store subtotal and net-total table; stated by FinancialRollupSpec |
| DoorDashRollups.FinancialRollupSpec | doordash_dashboard_v2.py:533-536 | One row per distinct store, each holding its store's subtotal and net sums; store subtotals and net totals add up to the two financial cards |
| DoorDashRollups.FinancialTopStoresSpec | doordash_dashboard_v2.py:537 | min(10, stores) rows of the roll-up, descending by subtotal, none smaller than a store left out |
| DoorDashRollups.MarketingTopStores | doordash_dashboard_v2.py:595-602 | The marketing top-stores table exists iff the store selector is 'All', has at most 10 rows and is sorted by sales |
| DoorDashRollups.MarketingStorePerformance | doordash_dashboard_v2.py:596-601 | The per-store sales, orders, mean ROAS and new-customers table; stated by MarketingRollupSpec |
| DoorDashRollups.MarketingRollupSpec | doordash_dashboard_v2.py:596-601 | One row per distinct store: sales, orders and new customers are its sums, ROAS its mean; store sales, orders and new customers add up to the cards |
| DoorDashRollups.MarketingTopStoresSpec | doordash_dashboard_v2.py:602 | min(10, stores) rows of the roll-up, descending by sales, none smaller than a store left out |
| DoorDashRollups.TopStoresScenario | doordash_dashboard_v2.py:602 | Stores selling 500, 900 and 300: the top two are the 900 store, then the 500 store |
| DoorDashRollups.CampaignDrillDown | doordash_dashboard_v2.py:612-677 | Present only for a single store with rows: its rows newest first (a permutation), and their count |
| DoorDashRollups.CampaignDrillDownSpec | doordash_dashboard_v2.py:616-677 | Absent iff the filtered table is empty; otherwise it holds every filtered row, and its sales, orders and average ROAS equal the marketing cards |
| DoorDashRollups.DrillDownHighlight | doordash_dashboard_v2.py:633-636 | A store average below 4 means some campaign-day is highlighted; if every campaign-day is highlighted, the average is also below 4 |
| DoorDashRollups.HighlightRoas | doordash_dashboard_v2.py:633-636 | A ROAS cell is highlighted iff its value is below 4; its consequences for the store average are in DrillDownHighlight |
| GrubHub.GrubHubFiltered | doordash_dashboard_v2.py:206-218 | KeyError('end_date') iff the date clause runs on a table without `end_date`; otherwise a row is kept iff it meets the active clauses |
| GrubHub.ApplyGrubHubFilters | doordash_dashboard_v2.py:206-218 | Copying and narrowing by the date clause, then the store clause, gives exactly the conjunctive filter or the KeyError |
| GrubHub.GrubHubFilterSound | doordash_dashboard_v2.py:209-216 | Kept rows are in order, start on or after the range start, end on or before the range end, and belong to the chosen store |
| GrubHub.GrubHubFilterInactive | doordash_dashboard_v2.py:209-216 | With no date pair or no start-date column, and store 'All' or no store column, the table comes back whole |
| GrubHub.GrubHubDefaultRangeDropsUndated | doordash_dashboard_v2.py:174-183 | The default range [min start, max end] with store 'All' keeps exactly the rows whose two dates both parsed |
| GrubHub.FinancialCardsOf | doordash_dashboard_v2.py:226-286 | Absent iff the table is empty; orders, sales, net total and tips are column sums; commission is abs(Σ commission); average order value is sales/orders, or 0 without orders; commission rate is 100·commission/sales, or 0 without sales |
| GrubHub.GrubHubAverageOrderValueScenario | doordash_dashboard_v2.py:254 | Two periods with 10 and 20 orders and sales 100 and 300 give average order value 40/3 |
| GrubHub.OperationsCardsOf | doordash_dashboard_v2.py:294-325 | Absent iff the table is empty; total orders is Σ total_orders; each rate is 100·(Σ part)/total orders, or 0 when there are no orders |
| GrubHub.OperationsRatesBounded | doordash_dashboard_v2.py:305-325 | Per-row parts of the orders give rates between 0 and 100 percent |
| GrubHub.PartOfOrders | doordash_dashboard_v2.py:306-307 | A per-row part of the orders sums to between 0 and the total orders |
| GrubHub.StoreTotals | doordash_dashboard_v2.py:337-345 | Average order value is finite iff the store has orders, and is then sales/orders; commission rate is the unguarded quotient 100·abs(commission)/sales, finite iff sales are non-zero |
| GrubHub.StorePerformance | doordash_dashboard_v2.py:337-345 | The per-store GrubHub table; stated by StorePerformanceSpec |
| GrubHub.TopStoresBySales | doordash_dashboard_v2.py:351 | At most 10 rows of the store table, sorted by sales, largest first |
| GrubHub.TopStoresByOrders | doordash_dashboard_v2.py:361 | At most 10 rows of the store table, sorted by orders, largest first |
| GrubHub.StorePerformanceSpec | doordash_dashboard_v2.py:337-342 | One row per distinct store with its sums of orders, sales, net and commission; store sales and orders add up to the financial cards |
| GrubHub.TopStoresSpec | doordash_dashboard_v2.py:351-361 | Both top-10 tables hold min(10, stores) rows, sorted by their column, none smaller than a store left out |
| GrubHub.TopItemsByQuantity | doordash_dashboard_v2.py:379 | min(15, items) product rows by quantity sold, largest first, none smaller than an item left out |
| GrubHub.TopItemsByRevenue | doordash_dashboard_v2.py:389 | min(15, items) product rows by item sales, largest first, none smaller than an item left out |

## Left out

- Rendering: Streamlit widgets, CSS, plotly charts, number formatting (`:,.2f`, `%Y-%m-%d`) and the platform buttons are not modelled. The model stops at the values displayed.
- Loading: CSV reading, caching and date parsing (`load_data`, `load_grubhub_data`) are not modelled. Dates arrive already truncated to days. GrubHub dates may be NaT (`None`); DoorDash dates are always present (see below). `load_data` returns `(None, None)` when either DoorDash file fails, so one bad file hides both DoorDash sections. This is not modelled either.
- Floating point: money and ratios are exact reals. Rounding, and NaN in the input cells, are not modelled. NaN appears only where the code divides without a guard (`Quotient`).
- Tie order: `NLargest` is a stable descending sort cut at n, but no contract promises an order for tied values, because `sort_values` does not promise one.
- The customer-type and GH+ selectors (`:196-203`) feed no filter in the code, so they are not modelled.
- `HighlightRoas`: models only `val < 4`. The `isinstance(val, (int, float))` test is true for every float ROAS cell, and this model has no integer-typed cells.
- The `not df.empty` guards around the GrubHub sections are modelled as `None` results of the card functions. The "no campaign data" message is modelled as `None` from `CampaignDrillDown`.
- The "Data Summary" panels (`:681-704`, `:397-427`): record counts, date spans and unique counts are not modelled.
- The product mix is ranked without the sidebar filters, as the code does. `TopItemsByQuantity` and `TopItemsByRevenue` take the whole table.
- MarketingFilterIdentity, FinancialFilterDefault: the DoorDash `date` fields are plain days, so a missing date cannot occur. In the code `pd.to_datetime` (`:74`, `:78`) turns an empty cell into NaT. Such a row fails both date comparisons (`:479-480`, `:501-502`), so the code drops it even at the default range. These two lemmas do not cover that case. `GrubHubDefaultRangeDropsUndated` states the effect for the GrubHub tables, whose dates are optional.
