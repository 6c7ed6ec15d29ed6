/** The DoorDash per-store roll-ups (top stores by subtotal, top stores by
    marketing sales) and the campaign drill-down shown when one marketing
    store is selected, with its ROAS highlight rule. */
module DoorDashRollups {
  import opened Common
  import opened Tables
  import opened StoreNames
  import opened Aggregates
  import opened Grouping
  import opened Ranking
  import opened DoorDash

  // ---------------------------------------------------------------- financial roll-up

  /** One row of `groupby('Store name').agg({'Subtotal': 'sum', 'Net total': 'sum'})`. */
  datatype FinancialStoreRow = FinancialStoreRow(storeName: string, subtotal: real, netTotal: real)

  function FinancialStoreTotals(g: Group<TransactionRow>): FinancialStoreRow
  {
    FinancialStoreRow(g.key, Sum(g.rows, Subtotal), Sum(g.rows, NetTotal))
  }

  function FinancialStoreName(r: FinancialStoreRow): string { r.storeName }
  function StoreSubtotal(r: FinancialStoreRow): real { r.subtotal }
  function StoreNetTotal(r: FinancialStoreRow): real { r.netTotal }

  /** The per-store financial table before sorting. */
  function FinancialStorePerformance(filtered: seq<TransactionRow>): seq<FinancialStoreRow>
  {
    Rollup(filtered, TransactionStore, FinancialStoreTotals)
  }

  /** The "Top 10 Stores by Subtotal" table: drawn only when no single store
      is selected, sorted by subtotal, largest first, cut at ten rows. */
  function FinancialTopStores(filtered: seq<TransactionRow>, sel: FinancialSelection): (top: Option<seq<FinancialStoreRow>>)
    ensures top.Some? <==> sel.store == AllOption
    ensures top.Some? ==> |top.value| <= TopStoreCount && Descending(top.value, StoreSubtotal)
  {
    if sel.store == AllOption then Some(NLargest(FinancialStorePerformance(filtered), TopStoreCount, StoreSubtotal))
    else None
  }

  /** The financial roll-up has one row per distinct store of the filtered
      table, each holding that store's totals, and the store subtotals add
      up to the overall subtotal card. */
  lemma FinancialRollupSpec(filtered: seq<TransactionRow>)
    ensures |FinancialStorePerformance(filtered)| == |Elements(Column(filtered, TransactionStore))|
    ensures forall i, j :: 0 <= i < j < |FinancialStorePerformance(filtered)| ==>
      FinancialStorePerformance(filtered)[i].storeName != FinancialStorePerformance(filtered)[j].storeName
    ensures forall r :: r in filtered ==>
      exists i :: 0 <= i < |FinancialStorePerformance(filtered)| && FinancialStorePerformance(filtered)[i].storeName == r.storeName
    ensures forall i :: 0 <= i < |FinancialStorePerformance(filtered)| ==>
      && RowsWithKey(filtered, TransactionStore, FinancialStorePerformance(filtered)[i].storeName) != []
      && FinancialStorePerformance(filtered)[i].subtotal ==
         Sum(RowsWithKey(filtered, TransactionStore, FinancialStorePerformance(filtered)[i].storeName), Subtotal)
      && FinancialStorePerformance(filtered)[i].netTotal ==
         Sum(RowsWithKey(filtered, TransactionStore, FinancialStorePerformance(filtered)[i].storeName), NetTotal)
    ensures Sum(FinancialStorePerformance(filtered), StoreSubtotal) == FinancialMetricsOf(filtered).overallSubtotal
    ensures Sum(FinancialStorePerformance(filtered), StoreNetTotal) == FinancialMetricsOf(filtered).netTotal
  {
    var gs := GroupBy(filtered, TransactionStore);
    var perf := FinancialStorePerformance(filtered);
    RollupShape(filtered, TransactionStore, FinancialStoreTotals, FinancialStoreName);
    GroupByPartition(filtered, TransactionStore, Subtotal);
    GroupByPartition(filtered, TransactionStore, NetTotal);
    SumOfAggregated(gs, perf, StoreSubtotal, Subtotal);
    SumOfAggregated(gs, perf, StoreNetTotal, NetTotal);
  }

  /** The top-ten table is sorted by subtotal, holds min(10, number of
      stores) rows, all from the roll-up, and no store left out has a larger
      subtotal than one kept. */
  lemma FinancialTopStoresSpec(filtered: seq<TransactionRow>, sel: FinancialSelection)
    requires sel.store == AllOption
    ensures var top := FinancialTopStores(filtered, sel).value;
      && |top| == Min(TopStoreCount, |Elements(Column(filtered, TransactionStore))|)
      && Descending(top, StoreSubtotal)
      && multiset(top) <= multiset(FinancialStorePerformance(filtered))
      && forall x, y :: x in top && y in multiset(FinancialStorePerformance(filtered)) - multiset(top) ==>
           y.subtotal <= x.subtotal
  {
    var perf := FinancialStorePerformance(filtered);
    var top := NLargest(perf, TopStoreCount, StoreSubtotal);
    FinancialRollupSpec(filtered);
    assert FinancialTopStores(filtered, sel).value == top;
    forall x: FinancialStoreRow, y: FinancialStoreRow | x in top && y in multiset(perf) - multiset(top) ensures y.subtotal <= x.subtotal {
      assert StoreSubtotal(y) <= StoreSubtotal(x);
    }
  }

  // ---------------------------------------------------------------- marketing roll-up

  /** One row of `groupby('Store name').agg({'Sales': 'sum', 'Orders': 'sum',
      'ROAS': 'mean', 'New customers acquired': 'sum'})`. */
  datatype MarketingStoreRow = MarketingStoreRow(storeName: string, sales: real, orders: real, roas: real, newCustomers: real)

  function MarketingStoreTotals(g: Group<CampaignRow>): MarketingStoreRow
  {
    MarketingStoreRow(g.key, Sum(g.rows, Sales), Sum(g.rows, Orders), MeanOrZero(g.rows, Roas), Sum(g.rows, NewCustomers))
  }

  function MarketingStoreName(r: MarketingStoreRow): string { r.storeName }
  function StoreSales(r: MarketingStoreRow): real { r.sales }
  function StoreOrders(r: MarketingStoreRow): real { r.orders }
  function StoreNewCustomers(r: MarketingStoreRow): real { r.newCustomers }

  function MarketingStorePerformance(filtered: seq<CampaignRow>): seq<MarketingStoreRow>
  {
    Rollup(filtered, CampaignStore, MarketingStoreTotals)
  }

  /** The "Top 10 Stores by Marketing Sales" table, drawn only when no single
      marketing store is selected. */
  function MarketingTopStores(filtered: seq<CampaignRow>, sel: MarketingSelection): (top: Option<seq<MarketingStoreRow>>)
    ensures top.Some? <==> sel.store == AllOption
    ensures top.Some? ==> |top.value| <= TopStoreCount && Descending(top.value, StoreSales)
  {
    if sel.store == AllOption then Some(NLargest(MarketingStorePerformance(filtered), TopStoreCount, StoreSales))
    else None
  }

  /** The marketing roll-up has one row per distinct store; sales, orders and
      new customers are the store's sums, ROAS the mean over the store's
      campaign-days; the store sales and orders add up to the cards. */
  lemma MarketingRollupSpec(filtered: seq<CampaignRow>)
    ensures |MarketingStorePerformance(filtered)| == |Elements(Column(filtered, CampaignStore))|
    ensures forall i, j :: 0 <= i < j < |MarketingStorePerformance(filtered)| ==>
      MarketingStorePerformance(filtered)[i].storeName != MarketingStorePerformance(filtered)[j].storeName
    ensures forall r :: r in filtered ==>
      exists i :: 0 <= i < |MarketingStorePerformance(filtered)| && MarketingStorePerformance(filtered)[i].storeName == r.storeName
    ensures forall i :: 0 <= i < |MarketingStorePerformance(filtered)| ==>
      var rows := RowsWithKey(filtered, CampaignStore, MarketingStorePerformance(filtered)[i].storeName);
      && rows != []
      && MarketingStorePerformance(filtered)[i].sales == Sum(rows, Sales)
      && MarketingStorePerformance(filtered)[i].orders == Sum(rows, Orders)
      && MarketingStorePerformance(filtered)[i].newCustomers == Sum(rows, NewCustomers)
      && MarketingStorePerformance(filtered)[i].roas == MeanOrZero(rows, Roas)
    ensures Sum(MarketingStorePerformance(filtered), StoreSales) == MarketingMetricsOf(filtered).sales
    ensures Sum(MarketingStorePerformance(filtered), StoreOrders) == MarketingMetricsOf(filtered).orders
    ensures Sum(MarketingStorePerformance(filtered), StoreNewCustomers) == MarketingMetricsOf(filtered).newCustomers
  {
    var gs := GroupBy(filtered, CampaignStore);
    var perf := MarketingStorePerformance(filtered);
    RollupShape(filtered, CampaignStore, MarketingStoreTotals, MarketingStoreName);
    GroupByPartition(filtered, CampaignStore, Sales);
    GroupByPartition(filtered, CampaignStore, Orders);
    GroupByPartition(filtered, CampaignStore, NewCustomers);
    SumOfAggregated(gs, perf, StoreSales, Sales);
    SumOfAggregated(gs, perf, StoreOrders, Orders);
    SumOfAggregated(gs, perf, StoreNewCustomers, NewCustomers);
  }

  /** The top-ten marketing table is sorted by sales, holds min(10, number
      of stores) rows, all from the roll-up, and no store left out sold more
      than one kept. */
  lemma MarketingTopStoresSpec(filtered: seq<CampaignRow>, sel: MarketingSelection)
    requires sel.store == AllOption
    ensures var top := MarketingTopStores(filtered, sel).value;
      && |top| == Min(TopStoreCount, |Elements(Column(filtered, CampaignStore))|)
      && Descending(top, StoreSales)
      && multiset(top) <= multiset(MarketingStorePerformance(filtered))
      && forall x, y :: x in top && y in multiset(MarketingStorePerformance(filtered)) - multiset(top) ==>
           y.sales <= x.sales
  {
    var perf := MarketingStorePerformance(filtered);
    var top := NLargest(perf, TopStoreCount, StoreSales);
    MarketingRollupSpec(filtered);
    assert MarketingTopStores(filtered, sel).value == top;
    forall x: MarketingStoreRow, y: MarketingStoreRow | x in top && y in multiset(perf) - multiset(top) ensures y.sales <= x.sales {
      assert StoreSales(y) <= StoreSales(x);
    }
  }

  /** Three stores selling 500, 900 and 300: the top two are B then A. */
  lemma TopStoresScenario()
    ensures var rows := [MarketingStoreRow("A", 500.0, 0.0, 0.0, 0.0),
                         MarketingStoreRow("B", 900.0, 0.0, 0.0, 0.0),
                         MarketingStoreRow("C", 300.0, 0.0, 0.0, 0.0)];
      NLargest(rows, 2, StoreSales) == [rows[1], rows[0]]
  {
    var a, b, c := MarketingStoreRow("A", 500.0, 0.0, 0.0, 0.0),
                   MarketingStoreRow("B", 900.0, 0.0, 0.0, 0.0),
                   MarketingStoreRow("C", 300.0, 0.0, 0.0, 0.0);
    SortScenario(a, b, c);
  }

  lemma SortScenario(a: MarketingStoreRow, b: MarketingStoreRow, c: MarketingStoreRow)
    requires a.sales == 500.0 && b.sales == 900.0 && c.sales == 300.0
    ensures SortDescending([a, b, c], StoreSales) == [b, a, c]
  {
    assert [a, b, c][0] == a && [a, b, c][1..] == [b, c];
    assert [b, c][0] == b && [b, c][1..] == [c];
    assert [c][0] == c && [c][1..] == [];
    assert SortDescending([c], StoreSales) == [c];
    assert InsertDescending(b, [c], StoreSales) == [b, c];
    assert InsertDescending(a, [c], StoreSales) == [a, c];
    assert InsertDescending(a, [b, c], StoreSales) == [b] + [a, c];
  }

  // ---------------------------------------------------------------- campaign drill-down

  /** The campaign table and summary cards for the one selected store. */
  datatype CampaignSummary = CampaignSummary(
    campaigns: seq<CampaignRow>,
    totalCampaigns: nat,
    totalSales: real,
    averageRoas: real,
    totalOrders: real)

  /** Shown only when a single store is selected and it has rows left: its
      campaign-days, newest first, their count, total sales, mean ROAS and
      total orders. */
  function CampaignDrillDown(filtered: seq<CampaignRow>, sel: MarketingSelection): (d: Option<CampaignSummary>)
    ensures d.Some? ==> sel.store != AllOption
    ensures d.Some? ==>
      var rows := RowsWithKey(filtered, CampaignStore, sel.store);
      && multiset(d.value.campaigns) == multiset(rows)
      && Descending(d.value.campaigns, CampaignDay)
      && d.value.totalCampaigns == |rows| > 0
  {
    if sel.store == AllOption then None
    else
      var rows := RowsWithKey(filtered, CampaignStore, sel.store);
      if |rows| == 0 then None
      else
        SortDescendingSorted(rows, CampaignDay);
        Some(CampaignSummary(SortDescending(rows, CampaignDay), |rows|, Sum(rows, Sales), MeanOrZero(rows, Roas), Sum(rows, Orders)))
  }

  /** The store selection has already narrowed the marketing table, so the
      drill-down covers the whole filtered table: it is absent exactly when
      that table is empty, and its cards agree with the marketing cards. */
  lemma CampaignDrillDownSpec(df: seq<CampaignRow>, sel: MarketingSelection)
    requires sel.store != AllOption
    ensures CampaignDrillDown(MarketingFiltered(df, sel), sel).None? <==> MarketingFiltered(df, sel) == []
    ensures CampaignDrillDown(MarketingFiltered(df, sel), sel).Some? ==>
      var filtered := MarketingFiltered(df, sel);
      var d := CampaignDrillDown(filtered, sel).value;
      && multiset(d.campaigns) == multiset(filtered)
      && d.totalCampaigns == |filtered|
      && d.totalSales == MarketingMetricsOf(filtered).sales
      && d.totalOrders == MarketingMetricsOf(filtered).orders
      && d.averageRoas == MarketingMetricsOf(filtered).averageRoas
  {
    var filtered := MarketingFiltered(df, sel);
    RowsWithKeyAll(filtered, CampaignStore, sel.store);
  }

  /** The ROAS cell style: a value below 4 is shown in red. */
  const RoasTarget: real := 4.0

  predicate HighlightRoas(roas: real)
  {
    roas < RoasTarget
  }

  /** A store average below target means at least one campaign-day is
      highlighted; every campaign-day highlighted means the average is too. */
  lemma DrillDownHighlight(filtered: seq<CampaignRow>, sel: MarketingSelection)
    requires CampaignDrillDown(filtered, sel).Some?
    ensures var d := CampaignDrillDown(filtered, sel).value;
      HighlightRoas(d.averageRoas) ==> exists r :: r in d.campaigns && HighlightRoas(r.roas)
    ensures var d := CampaignDrillDown(filtered, sel).value;
      (forall r :: r in d.campaigns ==> HighlightRoas(r.roas)) ==> HighlightRoas(d.averageRoas)
  {
    var d := CampaignDrillDown(filtered, sel).value;
    var rows := RowsWithKey(filtered, CampaignStore, sel.store);
    assert forall r :: r in d.campaigns <==> r in rows by {
      forall r ensures r in d.campaigns <==> r in rows {
        assert r in d.campaigns <==> r in multiset(d.campaigns);
        assert r in rows <==> r in multiset(rows);
      }
    }
    if forall r :: r in rows ==> !HighlightRoas(r.roas) {
      MeanAtLeast(rows, Roas, RoasTarget);
    }
    if forall r :: r in rows ==> HighlightRoas(r.roas) {
      MeanBelow(rows, Roas, RoasTarget);
    }
  }
}
