/** The MobileChart demo dashboard of the same restaurant: the income and expense totals,
    the balance sheet built from fixed figures, the latest day's sales, the menu tiers and
    the tab and mobile-navigation state. Amounts are whole rupiah, as in its data. */
module MobileDashboard {
  import opened Seqs

  datatype Transaction = Transaction(id: nat, date: string, kind: string, category: string,
                                     amount: int, description: string)

  function Amount(t: Transaction): int { t.amount }
  predicate IsIncome(t: Transaction) { t.kind == "income" }
  predicate IsExpense(t: Transaction) { t.kind == "expense" }

  /** The dashboard's transaction list. */
  const Transactions: seq<Transaction> := [
    Transaction(1, "2024-08-20", "income", "Penjualan Dine-in", 2500000, "Penjualan harian dine-in"),
    Transaction(2, "2024-08-20", "income", "Penjualan Takeaway", 1800000, "Penjualan takeaway & delivery"),
    Transaction(3, "2024-08-20", "expense", "Bahan Baku", 800000, "Daging sapi, ayam, sayuran"),
    Transaction(4, "2024-08-21", "expense", "Gaji Karyawan", 450000, "Gaji harian koki & pelayan"),
    Transaction(5, "2024-08-21", "income", "Catering", 3200000, "Catering acara pernikahan"),
    Transaction(6, "2024-08-21", "expense", "Utilitas", 200000, "Listrik, gas, air"),
    Transaction(7, "2024-08-22", "expense", "Transportasi", 150000, "Delivery & pembelian bahan"),
    Transaction(8, "2024-08-22", "income", "Penjualan Online", 950000, "GoFood & GrabFood")]

  function TotalIncome(txs: seq<Transaction>): int
  {
    Sum(Filter(txs, IsIncome), Amount)
  }

  function TotalExpense(txs: seq<Transaction>): int
  {
    Sum(Filter(txs, IsExpense), Amount)
  }

  function NetIncome(txs: seq<Transaction>): (r: int)
    ensures r + TotalExpense(txs) == TotalIncome(txs)
  {
    TotalIncome(txs) - TotalExpense(txs)
  }

  function IncomePart(t: Transaction): int { if IsIncome(t) then t.amount else 0 }
  function ExpensePart(t: Transaction): int { if IsExpense(t) then t.amount else 0 }

  /** Summing the filtered list is summing each row's share. */
  lemma {:induction false} TotalsByRow(txs: seq<Transaction>)
    ensures TotalIncome(txs) == Sum(txs, IncomePart)
    ensures TotalExpense(txs) == Sum(txs, ExpensePart)
  {
    if txs != [] {
      TotalsByRow(txs[1..]);
      var t := txs[0];
      SumAppend(if IsIncome(t) then [t] else [], Filter(txs[1..], IsIncome), Amount);
      SumAppend(if IsExpense(t) then [t] else [], Filter(txs[1..], IsExpense), Amount);
      assert [t][1..] == [];
    }
  }

  /** When every transaction is income or expense, the two totals split the grand total. */
  lemma {:induction false} IncomeExpensePartition(txs: seq<Transaction>)
    requires forall i :: 0 <= i < |txs| ==> IsIncome(txs[i]) || IsExpense(txs[i])
    ensures TotalIncome(txs) + TotalExpense(txs) == Sum(txs, Amount)
  {
    TotalsByRow(txs);
    RowShares(txs);
  }

  lemma {:induction false} RowShares(txs: seq<Transaction>)
    requires forall i :: 0 <= i < |txs| ==> IsIncome(txs[i]) || IsExpense(txs[i])
    ensures Sum(txs, IncomePart) + Sum(txs, ExpensePart) == Sum(txs, Amount)
  {
    if txs != [] {
      RowShares(txs[1..]);
    }
  }

  lemma TransactionTotals()
    ensures TotalIncome(Transactions) == 8450000
    ensures TotalExpense(Transactions) == 1600000
    ensures NetIncome(Transactions) == 6850000
  {
    TotalsByRow(Transactions);
    IncomeRows();
    ExpenseRows();
  }

  lemma IncomeRows()
    ensures Sum(Transactions, IncomePart) == 8450000
  {
  }

  lemma ExpenseRows()
    ensures Sum(Transactions, ExpensePart) == 1600000
  {
  }

  /** `balanceSheet`: each group is the `Object.values` of its figures, in listing order. */
  datatype Sheet = Sheet(currentAssets: seq<int>, fixedAssets: seq<int>,
                         currentLiabilities: seq<int>, longTermLiabilities: seq<int>)

  const BalanceSheetData: Sheet := Sheet(
    [15000000, 45000000, 8500000, 6500000],
    [85000000, 25000000, 120000000, 450000000],
    [4200000, 3500000, 2800000],
    [180000000, 24000000])

  function Total(xs: seq<int>): int
  {
    if xs == [] then 0 else xs[0] + Total(xs[1..])
  }

  function TotalAssets(b: Sheet): int
  {
    Total(b.currentAssets) + Total(b.fixedAssets)
  }

  function TotalLiabilities(b: Sheet): int
  {
    Total(b.currentLiabilities) + Total(b.longTermLiabilities)
  }

  /** Equity is not entered but defined as what is left of the assets. */
  function Equity(b: Sheet): (r: int)
    ensures TotalLiabilities(b) + r == TotalAssets(b)
  {
    TotalAssets(b) - TotalLiabilities(b)
  }

  /** The initial capital shown under "Modal Awal". */
  const InitialCapital: int := 500000000

  /** "Laba Ditahan": whatever equity the initial capital does not explain. */
  function RetainedEarnings(b: Sheet): (r: int)
    ensures InitialCapital + r == Equity(b)
  {
    Equity(b) - InitialCapital
  }

  function Abs(x: int): nat { if x < 0 then -x else x }

  /** "Selisih" of the balance check. */
  function Difference(b: Sheet): nat
  {
    Abs(TotalAssets(b) - (TotalLiabilities(b) + Equity(b)))
  }

  /** The balance check cannot fail, whatever the figures: equity is defined to close it. */
  lemma AlwaysBalanced(b: Sheet)
    ensures Difference(b) == 0
  {
  }

  lemma SheetFigures()
    ensures TotalAssets(BalanceSheetData) == 755000000
    ensures TotalLiabilities(BalanceSheetData) == 214500000
    ensures Equity(BalanceSheetData) == 540500000
    ensures RetainedEarnings(BalanceSheetData) == 40500000
  {
  }

  /** One day of `dailySalesData`, per channel. */
  datatype DailySales = DailySales(date: string, dineIn: int, takeaway: int, online: int, catering: int)

  const DailySalesData: seq<DailySales> := [
    DailySales("20 Agu", 2500000, 1800000, 950000, 0),
    DailySales("21 Agu", 2800000, 1600000, 1200000, 3200000),
    DailySales("22 Agu", 3200000, 2100000, 1400000, 0),
    DailySales("23 Agu", 2900000, 1900000, 1100000, 1800000),
    DailySales("24 Agu", 3500000, 2300000, 1600000, 0),
    DailySales("25 Agu", 4200000, 2800000, 1800000, 2500000),
    DailySales("26 Agu", 3800000, 2400000, 1500000, 0)]

  /** `totalDailySales`: all four channels of the latest day. The source reads the last
      entry unguarded, so it needs at least one day. */
  function TotalDailySales(days: seq<DailySales>): (r: int)
    requires |days| > 0
    ensures var d := days[|days| - 1]; r == d.dineIn + d.takeaway + d.online + d.catering
  {
    var latest := days[|days| - 1];
    latest.dineIn + latest.takeaway + latest.online + latest.catering
  }

  /** Only the latest day counts: earlier days never change the figure. */
  lemma EarlierDaysIgnored(earlier: seq<DailySales>, days: seq<DailySales>)
    requires |days| > 0
    ensures TotalDailySales(earlier + days) == TotalDailySales(days)
  {
  }

  lemma LatestDayTotal()
    ensures TotalDailySales(DailySalesData) == 7700000
  {
  }

  datatype Tier = Excellent | Good | Average

  /** The status of a menu row by portions sold. */
  function PerformanceTier(sold: int): (r: Tier)
    ensures r == Excellent <==> sold >= 70
    ensures r == Good <==> 50 <= sold < 70
    ensures r == Average <==> sold < 50
  {
    if sold >= 70 then Excellent else if sold >= 50 then Good else Average
  }

  function TierLevel(t: Tier): nat
  {
    match t
    case Excellent => 2
    case Good => 1
    case Average => 0
  }

  /** Selling more never lowers a menu's tier. */
  lemma TierMonotone(a: int, b: int)
    requires a <= b
    ensures TierLevel(PerformanceTier(a)) <= TierLevel(PerformanceTier(b))
  {
  }

  /** The two UI state cells the handlers change. */
  class DashboardState {
    var activeTab: string
    var mobileNavOpen: bool

    constructor()
      ensures activeTab == "overview" && !mobileNavOpen
    {
      activeTab := "overview";
      mobileNavOpen := false;
    }

    /** Choosing a tab selects it and closes the mobile navigation. */
    method HandleTabChange(tabId: string)
      modifies this
      ensures activeTab == tabId && !mobileNavOpen
    {
      activeTab := tabId;
      mobileNavOpen := false;
    }

    /** Closing the mobile navigation keeps the selected tab. */
    method CloseMobileNav()
      modifies this
      ensures !mobileNavOpen && activeTab == old(activeTab)
    {
      mobileNavOpen := false;
    }

    /** The menu button opens the mobile navigation. */
    method OpenMobileNav()
      modifies this
      ensures mobileNavOpen && activeTab == old(activeTab)
    {
      mobileNavOpen := true;
    }
  }

  /** Opening the navigation and picking a tab leaves that tab shown and the navigation
      closed, as if it had never been opened. */
  method OpenThenChoose(state: DashboardState, tabId: string)
    modifies state
    ensures state.activeTab == tabId && !state.mobileNavOpen
  {
    state.OpenMobileNav();
    state.HandleTabChange(tabId);
  }
}
