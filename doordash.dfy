/** The DoorDash half of the dashboard: the marketing (campaign) table and
    the financial (transaction) table, their sidebar filters, the metric
    cards, the per-store roll-ups and the campaign drill-down. */
module DoorDash {
  import opened Common
  import opened Tables
  import opened Aggregates

  /** One row of the marketing promotion export (one campaign-day). */
  datatype CampaignRow = CampaignRow(
    storeName: string,
    date: Day,
    isSelfServe: bool,
    campaignName: string,
    promotionType: string,
    orders: int,
    sales: real,
    roas: real,
    newCustomers: int,
    newDpCustomers: int,
    averageOrderValue: real)

  /** One row of the detailed financial transactions export. */
  datatype TransactionRow = TransactionRow(
    storeName: string,
    date: Day,
    transactionType: string,
    finalOrderStatus: string,
    subtotal: real,
    netTotal: real)

  // Columns. Each is a named function so that every use denotes the same column.
  function CampaignStore(r: CampaignRow): string { r.storeName }
  function CampaignDate(r: CampaignRow): Option<Day> { Some(r.date) }
  function CampaignDay(r: CampaignRow): real { r.date as real }
  function Sales(r: CampaignRow): real { r.sales }
  function Orders(r: CampaignRow): real { r.orders as real }
  function Roas(r: CampaignRow): real { r.roas }
  function NewCustomers(r: CampaignRow): real { r.newCustomers as real }
  function NewDpCustomers(r: CampaignRow): real { r.newDpCustomers as real }
  function AverageOrderValue(r: CampaignRow): real { r.averageOrderValue }
  function TransactionStore(r: TransactionRow): string { r.storeName }
  function TransactionDate(r: TransactionRow): Option<Day> { Some(r.date) }
  function Subtotal(r: TransactionRow): real { r.subtotal }
  function NetTotal(r: TransactionRow): real { r.netTotal }

  const OrderType: string := "Order"
  const DeliveredStatus: string := "Delivered"

  /** The sidebar selections, as the widgets deliver them. A date range that
      is not a pair (the widget mid-selection) imposes no constraint. */
  datatype MarketingSelection = MarketingSelection(dateRange: seq<Day>, selfServe: string, store: string)
  datatype FinancialSelection = FinancialSelection(dateRange: seq<Day>, store: string)

  /** The inclusive date-range clause; inactive unless the range is a pair. */
  predicate InDateRange(range: seq<Day>, d: Day)
  {
    |range| == 2 ==> range[0] <= d <= range[1]
  }

  // ---------------------------------------------------------------- marketing filter

  /** The marketing criteria as one conjunction: date in range, self-serve
      flag equal to `selection == 'True'`, store equal; 'All' switches a
      clause off. */
  predicate MarketingMatch(sel: MarketingSelection, r: CampaignRow)
  {
    && InDateRange(sel.dateRange, r.date)
    && (sel.selfServe != AllOption ==> r.isSelfServe == (sel.selfServe == "True"))
    && (sel.store != AllOption ==> r.storeName == sel.store)
  }

  function MarketingPredicate(sel: MarketingSelection): CampaignRow -> bool
  {
    (r: CampaignRow) => MarketingMatch(sel, r)
  }

  /** The marketing table as the filters leave it. */
  function MarketingFiltered(df: seq<CampaignRow>, sel: MarketingSelection): (r: seq<CampaignRow>)
    ensures |r| <= |df|
    ensures forall x :: x in r <==> x in df && MarketingMatch(sel, x)
  {
    Where(df, MarketingPredicate(sel))
  }

  /** The filter as the dashboard runs it: copy the table, then narrow it
      one active clause at a time. */
  method FilterMarketing(df: seq<CampaignRow>, sel: MarketingSelection) returns (filtered: seq<CampaignRow>)
    ensures filtered == MarketingFiltered(df, sel)
  {
    filtered := df;
    ghost var byDate := (r: CampaignRow) => InDateRange(sel.dateRange, r.date);
    if |sel.dateRange| == 2 {
      var lo, hi := sel.dateRange[0], sel.dateRange[1];
      var inRange := (r: CampaignRow) => lo <= r.date <= hi;
      WhereSame(df, inRange, byDate);
      filtered := Where(filtered, inRange);
    } else {
      WhereAll(df, byDate);
    }
    ghost var bySelfServe := (r: CampaignRow) =>
      byDate(r) && (sel.selfServe != AllOption ==> r.isSelfServe == (sel.selfServe == "True"));
    if sel.selfServe != AllOption {
      var wanted := sel.selfServe == "True";
      var isWanted := (r: CampaignRow) => r.isSelfServe == wanted;
      WhereAnd(df, byDate, isWanted, bySelfServe);
      filtered := Where(filtered, isWanted);
    } else {
      WhereSame(df, byDate, bySelfServe);
    }
    if sel.store != AllOption {
      var store := sel.store;
      var atStore := (r: CampaignRow) => r.storeName == store;
      WhereAnd(df, bySelfServe, atStore, MarketingPredicate(sel));
      filtered := Where(filtered, atStore);
    } else {
      WhereSame(df, bySelfServe, MarketingPredicate(sel));
    }
  }

  /** The marketing filter returns a subsequence of its input whose every
      row meets every active criterion. */
  lemma MarketingFilterSound(df: seq<CampaignRow>, sel: MarketingSelection)
    ensures IsSubsequence(MarketingFiltered(df, sel), df)
    ensures forall r :: r in MarketingFiltered(df, sel) ==>
      && (|sel.dateRange| == 2 ==> sel.dateRange[0] <= r.date <= sel.dateRange[1])
      && (sel.selfServe != AllOption ==> r.isSelfServe == (sel.selfServe == "True"))
      && (sel.store != AllOption ==> r.storeName == sel.store)
  {
    WhereIsSubsequence(df, MarketingPredicate(sel));
  }

  /** With store and self-serve at 'All' and the date range either not a
      pair or the widget's default [earliest date, latest date], the filter
      returns the table unchanged. */
  lemma MarketingFilterIdentity(df: seq<CampaignRow>, sel: MarketingSelection)
    requires sel.selfServe == AllOption && sel.store == AllOption
    requires |sel.dateRange| != 2 ||
      (Earliest(df, CampaignDate) == Some(sel.dateRange[0]) && Latest(df, CampaignDate) == Some(sel.dateRange[1]))
    ensures MarketingFiltered(df, sel) == df
  {
    forall r | r in df ensures MarketingPredicate(sel)(r) {
      assert CampaignDate(r).Some?;
    }
    WhereAll(df, MarketingPredicate(sel));
  }

  /** A range whose start lies after its end matches no campaign-day. */
  lemma MarketingReversedRangeIsEmpty(df: seq<CampaignRow>, sel: MarketingSelection)
    requires |sel.dateRange| == 2 && sel.dateRange[0] > sel.dateRange[1]
    ensures MarketingFiltered(df, sel) == []
  {
    WhereNone(df, MarketingPredicate(sel));
  }

  // ---------------------------------------------------------------- financial filter

  /** The financial criteria: always a delivered order; then the date range
      and the store. */
  predicate FinancialMatch(sel: FinancialSelection, r: TransactionRow)
  {
    && r.transactionType == OrderType
    && r.finalOrderStatus == DeliveredStatus
    && InDateRange(sel.dateRange, r.date)
    && (sel.store != AllOption ==> r.storeName == sel.store)
  }

  function FinancialPredicate(sel: FinancialSelection): TransactionRow -> bool
  {
    (r: TransactionRow) => FinancialMatch(sel, r)
  }

  /** The transaction table as the filters leave it: only delivered orders
      survive, whatever the date and store selections. */
  function FinancialFiltered(df: seq<TransactionRow>, sel: FinancialSelection): (r: seq<TransactionRow>)
    ensures |r| <= |df|
    ensures forall x :: x in r ==> x.transactionType == OrderType && x.finalOrderStatus == DeliveredStatus
    ensures forall x :: x in r <==> x in df && FinancialMatch(sel, x)
  {
    Where(df, FinancialPredicate(sel))
  }

  /** A delivered order, the clause that is always applied. */
  predicate IsDeliveredOrder(r: TransactionRow)
  {
    r.transactionType == OrderType && r.finalOrderStatus == DeliveredStatus
  }

  method FilterFinancial(df: seq<TransactionRow>, sel: FinancialSelection) returns (filtered: seq<TransactionRow>)
    ensures filtered == FinancialFiltered(df, sel)
  {
    filtered := Where(df, IsDeliveredOrder);
    ghost var byDate := (r: TransactionRow) => IsDeliveredOrder(r) && InDateRange(sel.dateRange, r.date);
    if |sel.dateRange| == 2 {
      var lo, hi := sel.dateRange[0], sel.dateRange[1];
      var inRange := (r: TransactionRow) => lo <= r.date <= hi;
      WhereAnd(df, IsDeliveredOrder, inRange, byDate);
      filtered := Where(filtered, inRange);
    } else {
      WhereSame(df, IsDeliveredOrder, byDate);
    }
    if sel.store != AllOption {
      var store := sel.store;
      var atStore := (r: TransactionRow) => r.storeName == store;
      WhereAnd(df, byDate, atStore, FinancialPredicate(sel));
      filtered := Where(filtered, atStore);
    } else {
      WhereSame(df, byDate, FinancialPredicate(sel));
    }
  }

  /** Choosing a store can only shrink the financial table: the result is a
      subsequence of the result with the store at 'All'. */
  lemma FinancialStoreNarrows(df: seq<TransactionRow>, sel: FinancialSelection)
    ensures IsSubsequence(FinancialFiltered(df, sel), FinancialFiltered(df, sel.(store := AllOption)))
  {
    WhereNarrows(df, FinancialPredicate(sel.(store := AllOption)), FinancialPredicate(sel));
  }

  /** With the store at 'All' and the default date range, the only rows the
      financial filter drops are those that are not delivered orders. */
  lemma FinancialFilterDefault(df: seq<TransactionRow>, sel: FinancialSelection)
    requires sel.store == AllOption
    requires |sel.dateRange| != 2 ||
      (Earliest(df, TransactionDate) == Some(sel.dateRange[0]) && Latest(df, TransactionDate) == Some(sel.dateRange[1]))
    ensures FinancialFiltered(df, sel) == Where(df, IsDeliveredOrder)
  {
    forall r | r in df ensures FinancialPredicate(sel)(r) == IsDeliveredOrder(r) {
      assert TransactionDate(r).Some?;
    }
    WhereSame(df, FinancialPredicate(sel), IsDeliveredOrder);
  }

  // ---------------------------------------------------------------- metric cards

  datatype FinancialMetrics = FinancialMetrics(overallSubtotal: real, netTotal: real)

  /** The two financial cards: the subtotal and net-total columns summed
      over the delivered orders left by the filter. */
  function FinancialMetricsOf(filtered: seq<TransactionRow>): (m: FinancialMetrics)
    ensures m.overallSubtotal == Sum(filtered, Subtotal)
    ensures m.netTotal == Sum(filtered, NetTotal)
    ensures |filtered| == 0 ==> m == FinancialMetrics(0.0, 0.0)
  {
    FinancialMetrics(Sum(filtered, Subtotal), Sum(filtered, NetTotal))
  }

  datatype MarketingMetrics = MarketingMetrics(
    sales: real,
    averageRoas: real,
    orders: real,
    newCustomers: real,
    newDpCustomers: real,
    averageOrderValue: real)

  /** The marketing cards. Average ROAS and average order value are means of
      the per-row values, and 0 on an empty table. */
  function MarketingMetricsOf(filtered: seq<CampaignRow>): (m: MarketingMetrics)
    ensures |filtered| == 0 ==> m == MarketingMetrics(0.0, 0.0, 0.0, 0.0, 0.0, 0.0)
    ensures m.sales == Sum(filtered, Sales) && m.orders == Sum(filtered, Orders)
    ensures m.newCustomers == Sum(filtered, NewCustomers) && m.newDpCustomers == Sum(filtered, NewDpCustomers)
    ensures |filtered| > 0 ==> m.averageRoas * (|filtered| as real) == Sum(filtered, Roas)
    ensures |filtered| > 0 ==> m.averageOrderValue * (|filtered| as real) == Sum(filtered, AverageOrderValue)
  {
    MarketingMetrics(
      Sum(filtered, Sales),
      MeanOrZero(filtered, Roas),
      Sum(filtered, Orders),
      Sum(filtered, NewCustomers),
      Sum(filtered, NewDpCustomers),
      MeanOrZero(filtered, AverageOrderValue))
  }

  /** Average ROAS lies between the smallest and the largest campaign ROAS. */
  lemma AverageRoasWithinBounds(filtered: seq<CampaignRow>, lo: real, hi: real)
    requires |filtered| > 0
    requires forall r :: r in filtered ==> lo <= r.roas <= hi
    ensures lo <= MarketingMetricsOf(filtered).averageRoas <= hi
  {
    MeanWithinBounds(filtered, Roas, lo, hi);
  }

  /** Two campaign-days with 10 and 20 orders and sales 100 and 300: the
      marketing card shows the mean of the per-row averages, 12.5, not total
      sales over total orders, 40/3. */
  lemma MarketingAverageOrderValueIsRowMean()
    ensures var rows := [
        CampaignRow("X", 0, true, "c", "p", 10, 100.0, 1.0, 0, 0, 10.0),
        CampaignRow("X", 1, true, "c", "p", 20, 300.0, 1.0, 0, 0, 15.0)];
      MarketingMetricsOf(rows).averageOrderValue == 12.5 &&
      SafeRatio(Sum(rows, Sales), Sum(rows, Orders)) == 40.0 / 3.0
  {
    var rows := [
        CampaignRow("X", 0, true, "c", "p", 10, 100.0, 1.0, 0, 0, 10.0),
        CampaignRow("X", 1, true, "c", "p", 20, 300.0, 1.0, 0, 0, 15.0)];
    assert Sum(rows, AverageOrderValue) == 25.0;
    assert Sum(rows, Sales) == 400.0 && Sum(rows, Orders) == 30.0;
  }

  /** Two delivered orders at store A and a refund at store B: the cards
      show subtotal 150 and net total 135, the refund excluded. */
  lemma FinancialCardsScenario()
    ensures var df := [
        TransactionRow("A", 0, OrderType, DeliveredStatus, 100.0, 90.0),
        TransactionRow("A", 0, OrderType, DeliveredStatus, 50.0, 45.0),
        TransactionRow("B", 0, "Refund", DeliveredStatus, 30.0, 27.0)];
      FinancialMetricsOf(FinancialFiltered(df, FinancialSelection([], AllOption))) == FinancialMetrics(150.0, 135.0)
  {
    var df := [
        TransactionRow("A", 0, OrderType, DeliveredStatus, 100.0, 90.0),
        TransactionRow("A", 0, OrderType, DeliveredStatus, 50.0, 45.0),
        TransactionRow("B", 0, "Refund", DeliveredStatus, 30.0, 27.0)];
    var sel := FinancialSelection([], AllOption);
    var p := FinancialPredicate(sel);
    assert df[1..][1..] == [df[2]];
    assert "Refund" != OrderType;
    assert !p(df[2]);
    assert Where([df[2]], p) == [] by { assert [df[2]][1..] == []; }
    assert p(df[1]) && p(df[0]);
    assert Where(df[1..], p) == [df[1]];
    assert FinancialFiltered(df, sel) == [df[0], df[1]];
    var kept := [df[0], df[1]];
    assert kept[1..] == [df[1]] && [df[1]][1..] == [];
    assert Sum([df[1]], Subtotal) == 50.0;
    assert NetTotal(df[1]) == 45.0 && Sum([], NetTotal) == 0.0;
    assert Sum([df[1]], NetTotal) == 45.0;
    assert Sum(kept, Subtotal) == 150.0;
    assert Sum(kept, NetTotal) == 135.0;
  }
}
