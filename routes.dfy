/** The HTTP handlers over the store: list routes that choose between the date-range
    query and the full listing, create routes answering 201 or 400, delete routes
    answering 204 or 404, and the daily financial summary. */
module Routes {
  import opened Wrappers
  import opened Seqs
  import opened Sorting
  import opened Ledger
  import opened Storage
  import opened BalanceSheet

  /** JavaScript truthiness of a query-string parameter: present and not empty. */
  predicate Truthy(q: Option<string>)
  {
    q.Some? && q.value != ""
  }

  /** The move from a query string to a time (`new Date(s)`); `None` is an Invalid
      Date, against which every comparison is false. */
  type DateParser = string -> Option<Time>

  /** GET /api/sales. */
  function ListSales(store: MemStorage, startDate: Option<string>, endDate: Option<string>,
                     parse: DateParser): (r: seq<Sale>)
    reads store
    requires store.Valid()
    ensures !(Truthy(startDate) && Truthy(endDate)) ==>
      multiset(r) == multiset(store.sales.Values()) && SortedDesc(r, SaleCreatedAt)
    ensures Truthy(startDate) && Truthy(endDate) && parse(startDate.value).Some? && parse(endDate.value).Some? ==>
      forall s :: s in r <==>
        s in store.sales.Values() && parse(startDate.value).value <= s.datetime <= parse(endDate.value).value
    ensures Truthy(startDate) && Truthy(endDate) && parse(startDate.value).Some? && parse(endDate.value).Some? ==>
      r == store.GetSalesByDateRange(parse(startDate.value).value, parse(endDate.value).value)
    ensures Truthy(startDate) && Truthy(endDate) && (parse(startDate.value).None? || parse(endDate.value).None?) ==>
      r == []
  {
    if Truthy(startDate) && Truthy(endDate) then
      var start := parse(startDate.value);
      var end := parse(endDate.value);
      if start.Some? && end.Some? then store.GetSalesByDateRange(start.value, end.value) else []
    else store.GetSales()
  }

  /** GET /api/expenses. */
  function ListExpenses(store: MemStorage, startDate: Option<string>, endDate: Option<string>,
                        parse: DateParser): (r: seq<Expense>)
    reads store
    requires store.Valid()
    ensures !(Truthy(startDate) && Truthy(endDate)) ==>
      multiset(r) == multiset(store.expenses.Values()) && SortedDesc(r, ExpenseCreatedAt)
    ensures Truthy(startDate) && Truthy(endDate) && parse(startDate.value).Some? && parse(endDate.value).Some? ==>
      forall e :: e in r <==>
        e in store.expenses.Values() && parse(startDate.value).value <= e.datetime <= parse(endDate.value).value
    ensures Truthy(startDate) && Truthy(endDate) && parse(startDate.value).Some? && parse(endDate.value).Some? ==>
      r == store.GetExpensesByDateRange(parse(startDate.value).value, parse(endDate.value).value)
    ensures Truthy(startDate) && Truthy(endDate) && (parse(startDate.value).None? || parse(endDate.value).None?) ==>
      r == []
  {
    if Truthy(startDate) && Truthy(endDate) then
      var start := parse(startDate.value);
      var end := parse(endDate.value);
      if start.Some? && end.Some? then store.GetExpensesByDateRange(start.value, end.value) else []
    else store.GetExpenses()
  }

  /** A missing or empty bound (as the report pages send for an "all" period) lists
      everything. */
  lemma EmptyBoundListsAll(store: MemStorage, parse: DateParser)
    requires store.Valid()
    ensures ListSales(store, Some(""), Some(""), parse) == store.GetSales()
    ensures ListSales(store, None, Some("2024-01-31"), parse) == store.GetSales()
    ensures ListExpenses(store, Some(""), Some(""), parse) == store.GetExpenses()
  {
  }

  /** The status of a DELETE: 204 when the store removed something, 404 otherwise. */
  function DeleteStatus(deleted: bool): (status: int)
    ensures status == 204 || status == 404
    ensures status == 204 <==> deleted
  {
    if deleted then 204 else 404
  }

  /** The status of a POST, given the outcome of the schema parse. */
  function CreateStatus<T, E>(parsed: Result<T, E>): (status: int)
    ensures status == 201 || status == 400
    ensures status == 201 <==> parsed.Success?
  {
    if parsed.Success? then 201 else 400
  }

  /** POST /api/sales: `parsed` is the outcome of the request-body schema. */
  method PostSales(store: MemStorage, parsed: Result<NewSale, string>, id: Id, now: Time)
    returns (status: int, created: Option<Sale>)
    requires store.Valid()
    modifies store
    ensures store.Valid()
    ensures status == CreateStatus(parsed)
    ensures parsed.Failure? ==> created.None? && store.sales == old(store.sales)
    ensures parsed.Success? ==>
      created == Some(Sale(id, parsed.value.menuItem, parsed.value.category.GetOr("dine-in"), parsed.value.quantity,
                          parsed.value.price, parsed.value.total, parsed.value.datetime, parsed.value.notes, now))
    ensures parsed.Success? ==> created.Some? && store.sales == old(store.sales).Set(id, created.value)
    ensures store.expenses == old(store.expenses) && store.assets == old(store.assets)
    ensures store.capital == old(store.capital) && store.liabilities == old(store.liabilities)
    ensures store.users == old(store.users)
  {
    status := CreateStatus(parsed);
    if parsed.Success? {
      var s := store.CreateSales(parsed.value, id, now);
      created := Some(s);
    } else {
      created := None;
    }
  }

  /** DELETE /api/sales/:id. */
  method DeleteSalesRoute(store: MemStorage, id: Id) returns (status: int)
    requires store.Valid()
    modifies store
    ensures store.Valid()
    ensures status == 204 <==> id in old(store.sales.entries)
    ensures status == 404 <==> id !in old(store.sales.entries)
    ensures store.sales == old(store.sales).Delete(id)
    ensures store.expenses == old(store.expenses) && store.assets == old(store.assets)
    ensures store.capital == old(store.capital) && store.liabilities == old(store.liabilities)
    ensures store.users == old(store.users)
  {
    var deleted := store.DeleteSales(id);
    status := DeleteStatus(deleted);
  }

  method PostExpense(store: MemStorage, parsed: Result<NewExpense, string>, id: Id, now: Time)
    returns (status: int, created: Option<Expense>)
    requires store.Valid()
    modifies store
    ensures store.Valid()
    ensures status == CreateStatus(parsed)
    ensures parsed.Failure? ==> created.None? && store.expenses == old(store.expenses)
    ensures parsed.Success? ==>
      created == Some(Expense(id, parsed.value.category, parsed.value.description, parsed.value.amount,
                             parsed.value.datetime, parsed.value.paymentMethod, parsed.value.notes, now))
    ensures parsed.Success? ==> created.Some? && store.expenses == old(store.expenses).Set(id, created.value)
    ensures store.sales == old(store.sales) && store.assets == old(store.assets)
    ensures store.capital == old(store.capital) && store.liabilities == old(store.liabilities)
    ensures store.users == old(store.users)
  {
    status := CreateStatus(parsed);
    if parsed.Success? {
      var e := store.CreateExpense(parsed.value, id, now);
      created := Some(e);
    } else {
      created := None;
    }
  }

  method DeleteExpenseRoute(store: MemStorage, id: Id) returns (status: int)
    requires store.Valid()
    modifies store
    ensures store.Valid()
    ensures status == 204 <==> id in old(store.expenses.entries)
    ensures status == 404 <==> id !in old(store.expenses.entries)
    ensures store.expenses == old(store.expenses).Delete(id)
    ensures store.sales == old(store.sales) && store.assets == old(store.assets)
    ensures store.capital == old(store.capital) && store.liabilities == old(store.liabilities)
    ensures store.users == old(store.users)
  {
    var deleted := store.DeleteExpense(id);
    status := DeleteStatus(deleted);
  }

  method PostAsset(store: MemStorage, parsed: Result<NewAsset, string>, id: Id, now: Time)
    returns (status: int, created: Option<Asset>)
    requires store.Valid()
    modifies store
    ensures store.Valid()
    ensures status == CreateStatus(parsed)
    ensures parsed.Failure? ==> created.None? && store.assets == old(store.assets)
    ensures parsed.Success? ==>
      created == Some(Asset(id, parsed.value.kind, parsed.value.name, parsed.value.value,
                           parsed.value.acquisitionDate, parsed.value.description, now))
    ensures parsed.Success? ==> created.Some? && store.assets == old(store.assets).Set(id, created.value)
    ensures store.sales == old(store.sales) && store.expenses == old(store.expenses)
    ensures store.capital == old(store.capital) && store.liabilities == old(store.liabilities)
    ensures store.users == old(store.users)
  {
    status := CreateStatus(parsed);
    if parsed.Success? {
      var a := store.CreateAsset(parsed.value, id, now);
      created := Some(a);
    } else {
      created := None;
    }
  }

  method DeleteAssetRoute(store: MemStorage, id: Id) returns (status: int)
    requires store.Valid()
    modifies store
    ensures store.Valid()
    ensures status == 204 <==> id in old(store.assets.entries)
    ensures status == 404 <==> id !in old(store.assets.entries)
    ensures store.assets == old(store.assets).Delete(id)
    ensures store.sales == old(store.sales) && store.expenses == old(store.expenses)
    ensures store.capital == old(store.capital) && store.liabilities == old(store.liabilities)
    ensures store.users == old(store.users)
  {
    var deleted := store.DeleteAsset(id);
    status := DeleteStatus(deleted);
  }

  method PostCapital(store: MemStorage, parsed: Result<NewCapital, string>, id: Id, now: Time)
    returns (status: int, created: Option<Capital>)
    requires store.Valid()
    modifies store
    ensures store.Valid()
    ensures status == CreateStatus(parsed)
    ensures parsed.Failure? ==> created.None? && store.capital == old(store.capital)
    ensures parsed.Success? ==>
      created == Some(Capital(id, parsed.value.source, parsed.value.amount, parsed.value.date,
                             parsed.value.description, now))
    ensures parsed.Success? ==> created.Some? && store.capital == old(store.capital).Set(id, created.value)
    ensures store.sales == old(store.sales) && store.expenses == old(store.expenses)
    ensures store.assets == old(store.assets) && store.liabilities == old(store.liabilities)
    ensures store.users == old(store.users)
  {
    status := CreateStatus(parsed);
    if parsed.Success? {
      var c := store.CreateCapital(parsed.value, id, now);
      created := Some(c);
    } else {
      created := None;
    }
  }

  method DeleteCapitalRoute(store: MemStorage, id: Id) returns (status: int)
    requires store.Valid()
    modifies store
    ensures store.Valid()
    ensures status == 204 <==> id in old(store.capital.entries)
    ensures status == 404 <==> id !in old(store.capital.entries)
    ensures store.capital == old(store.capital).Delete(id)
    ensures store.sales == old(store.sales) && store.expenses == old(store.expenses)
    ensures store.assets == old(store.assets) && store.liabilities == old(store.liabilities)
    ensures store.users == old(store.users)
  {
    var deleted := store.DeleteCapital(id);
    status := DeleteStatus(deleted);
  }

  method PostLiability(store: MemStorage, parsed: Result<NewLiability, string>, id: Id, now: Time)
    returns (status: int, created: Option<Liability>)
    requires store.Valid()
    modifies store
    ensures store.Valid()
    ensures status == CreateStatus(parsed)
    ensures parsed.Failure? ==> created.None? && store.liabilities == old(store.liabilities)
    ensures parsed.Success? ==>
      created == Some(Liability(id, parsed.value.kind, parsed.value.creditor, parsed.value.amount,
                               parsed.value.dueDate, parsed.value.status.GetOr("pending"), parsed.value.notes, now))
    ensures parsed.Success? ==> created.Some? && store.liabilities == old(store.liabilities).Set(id, created.value)
    ensures store.sales == old(store.sales) && store.expenses == old(store.expenses)
    ensures store.assets == old(store.assets) && store.capital == old(store.capital)
    ensures store.users == old(store.users)
  {
    status := CreateStatus(parsed);
    if parsed.Success? {
      var l := store.CreateLiability(parsed.value, id, now);
      created := Some(l);
    } else {
      created := None;
    }
  }

  method DeleteLiabilityRoute(store: MemStorage, id: Id) returns (status: int)
    requires store.Valid()
    modifies store
    ensures store.Valid()
    ensures status == 204 <==> id in old(store.liabilities.entries)
    ensures status == 404 <==> id !in old(store.liabilities.entries)
    ensures store.liabilities == old(store.liabilities).Delete(id)
    ensures store.sales == old(store.sales) && store.expenses == old(store.expenses)
    ensures store.assets == old(store.assets) && store.capital == old(store.capital)
    ensures store.users == old(store.users)
  {
    var deleted := store.DeleteLiability(id);
    status := DeleteStatus(deleted);
  }

  /** Deleting the same sale twice answers 204, then 404. */
  method DeleteSaleTwice(store: MemStorage, id: Id) returns (first: int, second: int)
    requires store.Valid() && id in store.sales.entries
    modifies store
    ensures first == 204 && second == 404
  {
    first := DeleteSalesRoute(store, id);
    second := DeleteSalesRoute(store, id);
  }

  // ----- GET /api/financial-summary -----

  datatype FinancialSummary = FinancialSummary(
    dailySales: Money,
    netProfit: Money,
    dailyExpenses: Money,
    totalAssets: Money,
    dailyCapital: Money,
    totalLiabilities: Money)

  /** From local midnight to 23:59:59.000 of the same day, in milliseconds. */
  const EndOfDayOffset: int := (23 * 3600 + 59 * 60 + 59) * 1000

  /** The summary over the day's sales and expenses and every asset, capital and
      liability record. */
  function Summarize(dailySales: seq<Sale>, dailyExpenses: seq<Expense>, assets: seq<Asset>,
                     capital: seq<Capital>, liabilities: seq<Liability>): (f: FinancialSummary)
    ensures f.netProfit == f.dailySales - f.dailyExpenses
  {
    var salesTotal := Sum(dailySales, SaleTotal);
    var expensesTotal := Sum(dailyExpenses, ExpenseAmount);
    FinancialSummary(salesTotal, salesTotal - expensesTotal, expensesTotal,
                     Sum(assets, AssetValue), Sum(capital, CapitalAmount), Sum(liabilities, LiabilityAmount))
  }

  /** The handler, for a day starting (local midnight) at `startOfDay`. */
  function FinancialSummaryOf(store: MemStorage, startOfDay: Time): (f: FinancialSummary)
    reads store
    requires store.Valid()
    ensures f.netProfit == f.dailySales - f.dailyExpenses
    ensures f.dailySales ==
      Sum(InRange(store.sales.Values(), SaleDatetime, startOfDay, startOfDay + EndOfDayOffset), SaleTotal)
    ensures f.dailyExpenses ==
      Sum(InRange(store.expenses.Values(), ExpenseDatetime, startOfDay, startOfDay + EndOfDayOffset), ExpenseAmount)
    ensures f.totalAssets == Sum(store.assets.Values(), AssetValue)
    ensures f.dailyCapital == Sum(store.capital.Values(), CapitalAmount)
    ensures f.totalLiabilities == Sum(store.liabilities.Values(), LiabilityAmount)
  {
    SumSortDesc(store.assets.Values(), AssetCreatedAt, AssetValue);
    SumSortDesc(store.capital.Values(), CapitalCreatedAt, CapitalAmount);
    SumSortDesc(store.liabilities.Values(), LiabilityCreatedAt, LiabilityAmount);
    Summarize(store.GetSalesByDateRange(startOfDay, startOfDay + EndOfDayOffset),
              store.GetExpensesByDateRange(startOfDay, startOfDay + EndOfDayOffset),
              store.GetAssets(), store.GetCapital(), store.GetLiabilities())
  }

  /** The day's window includes 23:59:59.000 and excludes the rest of that last second. */
  lemma LastFractionOfSecondExcluded(store: MemStorage, startOfDay: Time, s: Sale, t: Sale)
    requires store.Valid()
    requires s in store.sales.Values() && s.datetime == startOfDay + 86_399_000
    requires t in store.sales.Values() && t.datetime == startOfDay + 86_399_500
    ensures s in store.GetSalesByDateRange(startOfDay, startOfDay + EndOfDayOffset)
    ensures t !in store.GetSalesByDateRange(startOfDay, startOfDay + EndOfDayOffset)
  {
  }

  /** Two sales worth 100000 and 50000 and an expense of 30000 give a net profit of 120000. */
  lemma SummaryExample(s1: Sale, s2: Sale, e: Expense)
    requires s1.total == 100000 && s2.total == 50000 && e.amount == 30000
    ensures var f := Summarize([s1, s2], [e], [], [], []);
      f.dailySales == 150000 && f.dailyExpenses == 30000 && f.netProfit == 120000
  {
    assert [s1, s2][1..] == [s2] && [s2][1..] == [] && [e][1..] == [];
    assert Sum([s2], SaleTotal) == 50000;
    assert Sum([s1, s2], SaleTotal) == 150000;
    assert Sum([e], ExpenseAmount) == 30000;
  }

  predicate IsUnbucketedAsset(a: Asset) { !IsBucketedAsset(a) }
  predicate IsUnbucketedLiability(l: Liability) { !IsBucketedLiability(l) }

  /** The summary's totals are unfiltered: apart from the balance sheet's bucketed totals
      they also hold every asset and liability of an unlisted type (such as
      "utang-pajak" and "lainnya"). */
  lemma SummaryVersusBalanceSheet(daySales: seq<Sale>, dayExpenses: seq<Expense>, sales: seq<Sale>,
                                  expenses: seq<Expense>, assets: seq<Asset>, capital: seq<Capital>,
                                  liabilities: seq<Liability>)
    ensures var f := Summarize(daySales, dayExpenses, assets, capital, liabilities);
      var b := CalculateBalanceSheet(sales, expenses, assets, capital, liabilities);
      && f.totalAssets == b.assets.totalAssets + Sum(Filter(assets, IsUnbucketedAsset), AssetValue)
      && f.totalLiabilities == b.liabilities.totalLiabilities
           + Sum(Filter(liabilities, IsUnbucketedLiability), LiabilityAmount)
      && f.dailyCapital == b.equity.capital
  {
    SumFilterSplit(assets, IsBucketedAsset, IsUnbucketedAsset, AnyAsset, AssetValue);
    FilterAll(assets, AnyAsset);
    SumFilterSplit(liabilities, IsBucketedLiability, IsUnbucketedLiability, AnyLiability, LiabilityAmount);
    FilterAll(liabilities, AnyLiability);
  }

  predicate AnyAsset(a: Asset) { true }
  predicate AnyLiability(l: Liability) { true }

  lemma {:induction false} FilterAll<T(!new)>(xs: seq<T>, p: T -> bool)
    requires forall x :: p(x)
    ensures Filter(xs, p) == xs
  {
    if xs != [] {
      FilterAll(xs[1..], p);
    }
  }
}
