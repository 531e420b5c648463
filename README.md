# KeuanganPadang bookkeeping core, in Dafny

This project is a Dafny model of the bookkeeping core of KeuanganPadang, the finance app of a
Padang restaurant. It also models the MobileChart demo dashboard of the same restaurant.
The model covers:

- **The ledger store (`MemStorage`).** Sales, expenses, assets, capital contributions,
  liabilities and users are each kept in an insertion-ordered JavaScript `Map`.
- **The HTTP handlers.** These are the list routes with their optional date range, the create
  routes (201 / 400) and the delete routes (204 / 404). The daily financial summary is here too.
- **The pages that compute figures from the lists.** These are the balance sheet, the report
  page with its three CSV downloads and its preview table, menu performance, the sales and
  expenses list pages, the "recent transactions" card and the sales form.
- **The MobileChart dashboard.** This covers its totals, its balance check, its tier rule and
  its two state cells.

Conventions:

- Money is a whole number of cents (`Ledger.Money`), because every money column is
  `decimal(12,2)`. The MobileChart dashboard's demo figures are whole rupiah.
- Times are milliseconds (`Ledger.Time`).
- Whatever the source obtains from the environment is a parameter of the member that needs it:
  - `randomUUID()` and `new Date()`;
  - `toLowerCase`, the `lower` parameter;
  - locale formatting, the function fields of `Csv.Formats`. Its `amount` field prints a
    decimal column after `parseFloat` (the transaction report's "Jumlah" cell); its `number`
    field prints integer counts;
  - `new Date(string)`, the `Routes.DateParser` parameter;
  - `parseFloat` on the form's price string, the `parsePrice` parameter.
- `MemStorage` is a class whose six collections are fields of type `Storage.IdMap`: the keys in
  insertion order plus a `map`. The store's methods reassign those fields, and their
  contracts state the whole new state.
- The menu-performance accumulator and its per-category tallies are JavaScript objects used as
  ordered dictionaries. They are modelled as ordered entry lists.
- The page pipelines are pure and are modelled as functions. The one reduce loop is also
  written as the method `MenuPerformance.GroupByMenuItem`, which is proved against its
  function.

Modules, one per source file or concern:

- `Ledger`: records.
- `Storage`: `storage.ts`.
- `Routes`: `routes.ts`.
- `BalanceSheet`.
- `Reports` and `Csv`: `reports.tsx` and the shared CSV rendering.
- `MenuPerformance`.
- `SalesPage` and `ExpensesPage`.
- `Categories`: the option lists and labels of both list pages.
- `RecentTransactions`.
- `SalesModal`.
- `MobileDashboard`: MobileChart's `dashboard.tsx`.
- Generic helpers: `Seqs` (sum, filter, map, slice), `Sorting` (the stable descending sort that
  `Array.prototype.sort` performs with a numeric comparator), `Text` (`includes`, `join`,
  `split`, lexicographic order) and `Wrappers` (Option, Result).

Where the repository's written description and the code differ, the model follows the code:

- The description says a malformed numeric field counts as zero. In the code `parseFloat` gives
  `NaN`, and only the sales form's preview writes `|| 0`. The form is modelled with an explicit
  `NaN` (`SalesModal.Num`). Elsewhere the money columns arrive as decimals the schema has
  already checked, so they are whole cents.
- The store that runs in production is `DatabaseStorage` (`storage.ts:227`). The model is of
  `MemStorage`, the in-memory store the same file defines. The two differ in order: the
  in-memory range queries keep insertion order and the list queries put the newest creation
  time first.

## Model

| member | source | states |
|---|---|---|
| Storage.IdMap.Values | KeuanganPadang/server/storage.ts:93 | `Array.from(m.values())`: one value per stored key, in key insertion order |
| Storage.IdMap.Get | KeuanganPadang/server/storage.ts:69 | a value is found exactly when the key is stored, and it is that key's value |
| Storage.IdMap.Set | KeuanganPadang/server/storage.ts:114 | the entry is added or replaced; a fresh key goes last in the order, an existing key keeps its place; the map stays well formed |
| Storage.IdMap.Delete | KeuanganPadang/server/storage.ts:119 | the key is removed from the entries and from the order, every other key keeping its entry and its place; the order shrinks by one exactly when the key was present |
| Storage.SetFreshValues | KeuanganPadang/server/storage.ts:105-116 | storing a record under a fresh id appends it to the listing order |
| Storage.SetValuesContain | KeuanganPadang/server/storage.ts:114 | a record just stored is among the listed values |
| Storage.DeleteTwice | KeuanganPadang/server/storage.ts:118-120 | after one delete the key is gone, and a second delete changes nothing |
| Storage.InRange | KeuanganPadang/server/storage.ts:98-103 | keeps exactly the records whose time is at least the start and at most the end (both bounds inclusive) |
| Storage.InRangeSubseq | KeuanganPadang/server/storage.ts:99-102 | the range filter keeps the records' original order |
| Storage.InRangeReversed | KeuanganPadang/server/storage.ts:98-103 | a start later than the end selects nothing |
| Storage.NullIfEmpty | KeuanganPadang/server/storage.ts:81-84 | an empty or missing claim becomes null; a non-empty one is kept unchanged |
| Storage.MemStorage.constructor | KeuanganPadang/server/storage.ts:58-65 | all six collections start empty |
| Storage.MemStorage.GetUser | KeuanganPadang/server/storage.ts:68-70 | the stored user of that id, or none when there is none |
| Storage.MemStorage.UpsertUser | KeuanganPadang/server/storage.ts:72-89 | an empty or missing id is replaced by the fresh one; an existing user keeps its creation time; `updatedAt` is now; empty claims become null; the user is set and nothing else changes |
| Storage.MemStorage.GetSales | KeuanganPadang/server/storage.ts:92-96 | a permutation of the stored sales, newest creation time first |
| Storage.MemStorage.GetSalesByDateRange | KeuanganPadang/server/storage.ts:98-103 | exactly the stored sales whose datetime lies in the closed range, in insertion order |
| Storage.MemStorage.CreateSales | KeuanganPadang/server/storage.ts:105-116 | the new sale carries the payload, the fresh id and now; the category defaults to "dine-in"; it is stored and listed; no other collection changes |
| Storage.MemStorage.DeleteSales | KeuanganPadang/server/storage.ts:118-120 | answers true exactly when the id was stored; the sale is removed and nothing else changes |
| Storage.MemStorage.GetExpenses | KeuanganPadang/server/storage.ts:123-127 | a permutation of the stored expenses, newest creation time first |
| Storage.MemStorage.GetExpensesByDateRange | KeuanganPadang/server/storage.ts:129-134 | exactly the stored expenses whose datetime lies in the closed range, in insertion order |
| Storage.MemStorage.CreateExpense | KeuanganPadang/server/storage.ts:136-146 | the new expense carries the payload, the fresh id and now; it is stored and listed; no other collection changes |
| Storage.MemStorage.DeleteExpense | KeuanganPadang/server/storage.ts:148-150 | true exactly when the id was stored; the expense is removed and nothing else changes |
| Storage.MemStorage.GetAssets | KeuanganPadang/server/storage.ts:153-157 | a permutation of the stored assets, newest creation time first |
| Storage.MemStorage.CreateAsset | KeuanganPadang/server/storage.ts:159-169 | the new asset carries the payload, the fresh id and now; it is stored and listed; no other collection changes |
| Storage.MemStorage.DeleteAsset | KeuanganPadang/server/storage.ts:171-173 | true exactly when the id was stored; the asset is removed and nothing else changes |
| Storage.MemStorage.GetCapital | KeuanganPadang/server/storage.ts:176-180 | a permutation of the stored contributions, newest creation time first |
| Storage.MemStorage.CreateCapital | KeuanganPadang/server/storage.ts:182-192 | the new contribution carries the payload, the fresh id and now; it is stored and listed; no other collection changes |
| Storage.MemStorage.DeleteCapital | KeuanganPadang/server/storage.ts:194-196 | true exactly when the id was stored; the contribution is removed and nothing else changes |
| Storage.MemStorage.GetLiabilities | KeuanganPadang/server/storage.ts:199-203 | a permutation of the stored liabilities, newest creation time first |
| Storage.MemStorage.CreateLiability | KeuanganPadang/server/storage.ts:205-216 | the new liability carries the payload, the fresh id and now; the status defaults to "pending"; it is stored and listed; no other collection changes |
| Storage.MemStorage.DeleteLiability | KeuanganPadang/server/storage.ts:218-220 | true exactly when the id was stored; the liability is removed and nothing else changes |
| Storage.CreateThenDeleteTwice | KeuanganPadang/server/storage.ts:105-120 | a sale created and then deleted twice: the first delete answers true, the second false; the sale is gone, and the expenses and assets are untouched |
| Sorting.SortDesc | KeuanganPadang/server/storage.ts:93-95 | the sort by `key(b) - key(a)`: a permutation of its input, in descending key order |
| Sorting.SortDescStable | KeuanganPadang/server/storage.ts:93-95 | the sort is stable: the elements that share a key keep their input order |
| Sorting.SumSortDesc | KeuanganPadang/client/src/pages/menu-performance.tsx:72 | sorting changes no total |
| Sorting.SortDescKeepsTieOrder | KeuanganPadang/client/src/pages/menu-performance.tsx:72 | stability by position: two sorted elements with equal keys appear in their input order |
| Routes.ListSales | KeuanganPadang/server/routes.ts:29-46 | both bounds truthy and parseable: the range query over the parsed bounds; not both truthy: all sales; a truthy bound that does not parse (Invalid Date): the empty list |
| Routes.ListExpenses | KeuanganPadang/server/routes.ts:72-89 | the same three branches over the expenses |
| Routes.EmptyBoundListsAll | KeuanganPadang/server/routes.ts:33-41 | an empty or missing bound lists every record |
| Routes.CreateStatus | KeuanganPadang/server/routes.ts:48-56 | 201 exactly when the body parses, 400 otherwise |
| Routes.DeleteStatus | KeuanganPadang/server/routes.ts:58-69 | 204 exactly when something was removed, 404 otherwise |
| Routes.PostSales | KeuanganPadang/server/routes.ts:48-56 | a rejected body answers 400 and stores nothing; an accepted one answers 201 with the sale built from the body (category defaulting to "dine-in"), the fresh id and now, stored under that id; the other ledger collections and the users never change |
| Routes.DeleteSalesRoute | KeuanganPadang/server/routes.ts:58-69 | 204 exactly when the sale existed, 404 exactly when it did not; the sale is removed; the other ledger collections and the users are unchanged |
| Routes.PostExpense | KeuanganPadang/server/routes.ts:91-99 | as for sales: an accepted body gives the expense built from it, the fresh id and now, stored under that id; a rejected body answers 400 and stores nothing; the other ledger collections and the users are unchanged |
| Routes.DeleteExpenseRoute | KeuanganPadang/server/routes.ts:101-112 | 204 exactly when the expense existed, 404 otherwise; the expense is removed; the other ledger collections and the users are unchanged |
| Routes.PostAsset | KeuanganPadang/server/routes.ts:124-132 | as for sales: an accepted body gives the asset built from it, the fresh id and now, stored under that id; a rejected body answers 400 and stores nothing; the other ledger collections and the users are unchanged |
| Routes.DeleteAssetRoute | KeuanganPadang/server/routes.ts:134-145 | 204 exactly when the asset existed, 404 otherwise; the asset is removed; the other ledger collections and the users are unchanged |
| Routes.PostCapital | KeuanganPadang/server/routes.ts:157-165 | as for sales: an accepted body gives the contribution built from it, the fresh id and now, stored under that id; a rejected body answers 400 and stores nothing; the other ledger collections and the users are unchanged |
| Routes.DeleteCapitalRoute | KeuanganPadang/server/routes.ts:167-178 | 204 exactly when the contribution existed, 404 otherwise; the contribution is removed; the other ledger collections and the users are unchanged |
| Routes.PostLiability | KeuanganPadang/server/routes.ts:190-198 | as for sales: an accepted body gives the liability built from it (status defaulting to "pending"), the fresh id and now, stored under that id; a rejected body answers 400 and stores nothing; the other ledger collections and the users are unchanged |
| Routes.DeleteLiabilityRoute | KeuanganPadang/server/routes.ts:200-211 | 204 exactly when the liability existed, 404 otherwise; the liability is removed; the other ledger collections and the users are unchanged |
| Routes.DeleteSaleTwice | KeuanganPadang/server/routes.ts:58-69 | deleting a stored sale twice answers 204, then 404 |
| Routes.Summarize | KeuanganPadang/server/routes.ts:228-233 | the net profit is the day's sales minus the day's expenses |
| Routes.FinancialSummaryOf | KeuanganPadang/server/routes.ts:214-242 | the daily figures are the totals of the sales and expenses whose datetime lies between midnight and 23:59:59.000; assets, capital and liabilities are summed over every record |
| Routes.LastFractionOfSecondExcluded | KeuanganPadang/server/routes.ts:217-218 | a sale at 23:59:59.000 counts for the day and one at 23:59:59.500 does not |
| Routes.SummaryExample | KeuanganPadang/server/routes.ts:228-233 | worked example: sales of 100000 and 50000 and an expense of 30000 give a net profit of 120000 |
| Routes.SummaryVersusBalanceSheet | KeuanganPadang/server/routes.ts:230-232 | the summary's asset and liability totals are the balance sheet's bucketed totals plus the records of types outside the buckets |
| BalanceSheet.CalculateBalanceSheet | KeuanganPadang/client/src/pages/balance-sheet.tsx:79-127 | current assets are the cash, bank and inventory values, fixed assets the equipment, property and vehicle values, total assets their sum; current liabilities are the supplier, wage and rent debts, long-term liabilities the bank loans, total liabilities their sum; equity is capital plus sales minus expenses; the last line is liabilities plus equity |
| BalanceSheet.Difference | KeuanganPadang/client/src/pages/balance-sheet.tsx:240 | "Selisih" is the absolute gap between the two sides |
| BalanceSheet.BalancedOnInputs | KeuanganPadang/client/src/pages/balance-sheet.tsx:177 | "Seimbang" holds exactly when the gap between the input totals is under one rupiah, in either direction |
| BalanceSheet.IsBalanced | KeuanganPadang/client/src/pages/balance-sheet.tsx:177 | "Seimbang": the two sides differ by less than 100 cents (stated on the inputs by BalanceSheet.BalancedOnInputs and BalanceSheet.EmptyIsBalanced) |
| BalanceSheet.EmptyIsBalanced | KeuanganPadang/client/src/pages/balance-sheet.tsx:79-127 | with no records every figure is zero and the sheet is balanced |
| BalanceSheet.UnbucketedLiabilityIgnored | KeuanganPadang/client/src/pages/balance-sheet.tsx:92-100 | a liability of a type outside the buckets changes no figure of the sheet |
| BalanceSheet.UnbucketedLiabilityKinds | KeuanganPadang/client/src/components/modals/liability-modal.tsx:20-25 | of the six liability types the form offers, exactly "utang-pajak" and "lainnya" fall into no bucket |
| BalanceSheet.BucketsDisjoint | KeuanganPadang/client/src/pages/balance-sheet.tsx:81-87 | no asset type counts as both current and fixed |
| BalanceSheet.AssetKindsBucketed | KeuanganPadang/client/src/components/modals/asset-modal.tsx:20-25 | every asset type the form offers falls into exactly one bucket |
| BalanceSheet.AddBucketedAsset | KeuanganPadang/client/src/pages/balance-sheet.tsx:81-89 | one more bucketed asset raises its own bucket and the total by its value, and leaves liabilities and equity unchanged |
| BalanceSheet.RetainedEarningsCanBeNegative | KeuanganPadang/client/src/pages/balance-sheet.tsx:103-107 | worked example: spending with no sales makes retained earnings negative and equity smaller than capital |
| BalanceSheet.BalanceTolerance | KeuanganPadang/client/src/pages/balance-sheet.tsx:177 | worked example: sides 99 cents apart are balanced; sides one rupiah apart are not |
| BalanceSheet.CashAndEquipmentExample | KeuanganPadang/client/src/pages/balance-sheet.tsx:81-89 | worked example: Rp 15,000,000 of cash and Rp 85,000,000 of equipment give current, fixed and total assets of 15, 85 and 100 million |
| Reports.GetDateRange | KeuanganPadang/client/src/pages/reports.tsx:22-37 | the month bounds for "current-month", the year bounds for "current-year", empty bounds for any other period |
| Reports.OtherPeriodListsEverything | KeuanganPadang/client/src/pages/reports.tsx:36-47 | any other period lists every sale and every expense |
| Reports.TotalSales | KeuanganPadang/client/src/pages/reports.tsx:187 | the sum of the sales' totals; the transaction summary prints it as "Total Pemasukan" (stated by Reports.TransactionSummary and Reports.SignedTotal) |
| Reports.TotalExpenses | KeuanganPadang/client/src/pages/reports.tsx:188 | the sum of the expenses' amounts; printed as "Total Pengeluaran" (stated by Reports.TransactionSummary and Reports.SignedTotal) |
| Reports.NetIncome | KeuanganPadang/client/src/pages/reports.tsx:189 | total sales minus total expenses; the signed "Jumlah" column adds up to it (stated by Reports.SignedTotal and Reports.AllTransactionsAccounting) |
| Reports.SaleEntry | KeuanganPadang/client/src/pages/reports.tsx:135-141 | a sale as an income line of the merged list, "Penjualan" with `Penjualan menuItem (category)` and its total (counted by Reports.IncomeLines) |
| Reports.ExpenseEntry | KeuanganPadang/client/src/pages/reports.tsx:142-148 | an expense as an outgo line, `category - description` with its amount (counted by Reports.OutgoLines) |
| Reports.AllTransactions | KeuanganPadang/client/src/pages/reports.tsx:134-149 | `allTransactions`: one entry per sale and per expense, a permutation of the mapped lists, newest date first |
| Reports.AllTransactionsAccounting | KeuanganPadang/client/src/pages/reports.tsx:134-169 | the merged list has one income line per sale and one expense line per expense, and its signed amounts add up to the net income |
| Reports.IncomeLines | KeuanganPadang/client/src/pages/reports.tsx:135-141 | the merged list has exactly as many income lines as sales |
| Reports.OutgoLines | KeuanganPadang/client/src/pages/reports.tsx:142-148 | the merged list has exactly as many expense lines as expenses |
| Reports.SignedTotal | KeuanganPadang/client/src/pages/reports.tsx:161 | the "Jumlah" column adds up to total sales minus total expenses |
| Reports.SaleRows | KeuanganPadang/client/src/pages/reports.tsx:64-72 | one row per sale, in order |
| Reports.SalesReportRows | KeuanganPadang/client/src/pages/reports.tsx:58-77 | the sales report: a four-row preamble, the header, seven fields per sale in order, then the summary with total sales, the sale count and the total quantity |
| Reports.Layout | KeuanganPadang/client/src/pages/reports.tsx:58-77 | where the preamble, the body and the summary land in a report |
| Reports.SalesReportIsOneLine | KeuanganPadang/client/src/pages/reports.tsx:58-78 | the sales report as built (`SalesReport`, rows joined by a backslash and `n`) is one single line, whatever the sales |
| Reports.SalesReportLines | KeuanganPadang/client/src/pages/reports.tsx:58-78 | the corrected sales report (`SalesReportCorrected`, real line breaks) splits back into its rendered rows: the number of sales plus ten lines |
| Reports.ExpenseRows | KeuanganPadang/client/src/pages/reports.tsx:102-109 | one row per expense, in order |
| Reports.ExpenseReportRows | KeuanganPadang/client/src/pages/reports.tsx:97-114 | the expense report: the preamble, the header, six fields per expense in order, then the total and the count |
| Reports.ExpenseReportIsOneLine | KeuanganPadang/client/src/pages/reports.tsx:97-115 | the expense report as built (`ExpenseReport`) is one single line, whatever the expenses |
| Reports.ExpenseReportLines | KeuanganPadang/client/src/pages/reports.tsx:97-115 | the corrected expense report (`ExpenseReportCorrected`) splits back into its rendered rows: the number of expenses plus nine lines |
| Reports.TransactionRows | KeuanganPadang/client/src/pages/reports.tsx:157-163 | one row per merged entry, in order |
| Reports.TransactionBody | KeuanganPadang/client/src/pages/reports.tsx:157-163 | one row per sale and per expense, in the order of the merged list |
| Reports.TransactionHead | KeuanganPadang/client/src/pages/reports.tsx:152-156 | the "LAPORAN TRANSAKSI" preamble and the five-column header |
| Reports.TransactionSummary | KeuanganPadang/client/src/pages/reports.tsx:164-168 | the closing rows: total income, total outgo and "Saldo Bersih", the net income |
| Reports.TransactionReportRows | KeuanganPadang/client/src/pages/reports.tsx:151-168 | the transaction report: preamble, header, one row per merged entry in order, then the summary |
| Reports.TransactionReportIsOneLine | KeuanganPadang/client/src/pages/reports.tsx:151-169 | the transaction report as built (`TransactionReport`) is one single line, whatever the entries |
| Reports.TransactionReportLines | KeuanganPadang/client/src/pages/reports.tsx:151-169 | the corrected transaction report (`TransactionReportCorrected`) splits back into its rendered rows: the number of sales and expenses plus ten lines |
| Reports.SalesReport | KeuanganPadang/client/src/pages/reports.tsx:58-78 | the sales download as written, rows joined by a backslash and `n` (stated by Reports.SalesReportIsOneLine) |
| Reports.SalesReportCorrected | KeuanganPadang/client/src/pages/reports.tsx:58-78 | the sales download with real line breaks (stated by Reports.SalesReportLines) |
| Reports.ExpenseReport | KeuanganPadang/client/src/pages/reports.tsx:97-115 | the expense download as written (stated by Reports.ExpenseReportIsOneLine) |
| Reports.ExpenseReportCorrected | KeuanganPadang/client/src/pages/reports.tsx:97-115 | the expense download with real line breaks (stated by Reports.ExpenseReportLines) |
| Reports.TransactionReport | KeuanganPadang/client/src/pages/reports.tsx:151-169 | the transaction download as written (stated by Reports.TransactionReportIsOneLine) |
| Reports.TransactionReportCorrected | KeuanganPadang/client/src/pages/reports.tsx:151-169 | the transaction download with real line breaks (stated by Reports.TransactionReportLines) |
| Reports.TransactionRowSigns | KeuanganPadang/client/src/pages/reports.tsx:161-162 | an income row shows its amount as a JavaScript number and "Pemasukan"; an expense row shows its negated amount and "Pengeluaran" |
| Reports.PreviewSaleEntry | KeuanganPadang/client/src/pages/reports.tsx:504-510 | a preview income row with the sale's id, `menuItem (category)` and its total (stated by Reports.PreviewTransactions) |
| Reports.PreviewExpenseEntry | KeuanganPadang/client/src/pages/reports.tsx:511-517 | a preview outgo row with the expense's id, `category - description` and its amount (stated by Reports.PreviewTransactions) |
| Reports.PreviewTransactions | KeuanganPadang/client/src/pages/reports.tsx:504-518 | the preview holds the first five sales and the first five expenses (at most ten rows), newest first |
| Reports.NoDataIffEmptyPreview | KeuanganPadang/client/src/pages/reports.tsx:532-535 | "Tidak ada data transaksi" shows exactly when the preview is empty |
| Csv.Lines | KeuanganPadang/client/src/pages/reports.tsx:78 | each row becomes its fields joined by commas |
| Csv.AsWrittenIsOneLine | KeuanganPadang/client/src/pages/reports.tsx:78 | as written, the whole file is a single line, whatever the rows |
| Csv.AsWrittenTwoRows | KeuanganPadang/client/src/pages/reports.tsx:78 | worked example: as written, the rows `a` and `b` come out as one line holding a backslash and an `n` |
| Csv.RenderSplitsIntoRows | KeuanganPadang/client/src/pages/reports.tsx:78 | with real line breaks, splitting the file at them gives back one line per row |
| Csv.LineSplitsIntoFields | KeuanganPadang/client/src/pages/reports.tsx:78 | a line splits back into its fields when no field holds a comma |
| Csv.CommaInFieldSplitsIt | KeuanganPadang/client/src/pages/reports.tsx:78 | there is no quoting: a field holding a comma reads back as two fields |
| MenuPerformance.Bump | KeuanganPadang/client/src/pages/menu-performance.tsx:63 | the tally afterwards has exactly the old categories and the bumped one |
| MenuPerformance.BumpLookup | KeuanganPadang/client/src/pages/menu-performance.tsx:63 | the bumped category rises by the quantity and every other one is unchanged |
| MenuPerformance.BumpTotal | KeuanganPadang/client/src/pages/menu-performance.tsx:63 | the tally's total rises by the quantity |
| MenuPerformance.BumpDistinct | KeuanganPadang/client/src/pages/menu-performance.tsx:63 | no category ever gets two entries |
| MenuPerformance.IndexOf | KeuanganPadang/client/src/pages/menu-performance.tsx:48 | the position of the item's entry, or -1 exactly when there is none |
| MenuPerformance.Record | KeuanganPadang/client/src/pages/menu-performance.tsx:59-63 | one sale adds one to the count, its quantity, its total and its price, and bumps its category's tally (stated through MenuPerformance.RecordMatches and MenuPerformance.AddSalePreserves) |
| MenuPerformance.AddSale | KeuanganPadang/client/src/pages/menu-performance.tsx:41-66 | one reduce step: a new entry for an unseen item, otherwise the item's entry updated in place (stated by MenuPerformance.AddSalePreserves) |
| MenuPerformance.Accumulate | KeuanganPadang/client/src/pages/menu-performance.tsx:41-66 | the accumulator after the whole reduce (stated by MenuPerformance.AccumulateSummarizes and MenuPerformance.GroupByMenuItem) |
| MenuPerformance.FirstIndex | KeuanganPadang/client/src/pages/menu-performance.tsx:48-58 | the first sale of the item, or the end when it has none |
| MenuPerformance.AddSalePreserves | KeuanganPadang/client/src/pages/menu-performance.tsx:41-66 | one reduce step keeps the accumulator an exact grouping of the sales seen so far |
| MenuPerformance.AccumulateSummarizes | KeuanganPadang/client/src/pages/menu-performance.tsx:41-66 | the grouping has one entry per distinct item, in order of first appearance; each entry's revenue, quantity, prices and per-category quantities are exactly those of its sales; all revenue and quantity is kept |
| MenuPerformance.GroupByMenuItem | KeuanganPadang/client/src/pages/menu-performance.tsx:41-66 | the reduce as a loop gives the grouping above |
| MenuPerformance.OneGroupPerItem | KeuanganPadang/client/src/pages/menu-performance.tsx:48-58 | an item has an entry exactly when some sale names it, and no item has two |
| MenuPerformance.CaseSensitiveGrouping | KeuanganPadang/client/src/pages/menu-performance.tsx:42-48 | "Rendang" and "rendang" are two separate items |
| MenuPerformance.Mean | KeuanganPadang/client/src/pages/menu-performance.tsx:71 | the mean of the unit prices: zero for none, otherwise it times the count is their sum |
| MenuPerformance.Rank | KeuanganPadang/client/src/pages/menu-performance.tsx:72-75 | every row keeps its group and gets rank position plus one |
| MenuPerformance.RankStats | KeuanganPadang/client/src/pages/menu-performance.tsx:72-75 | ranking drops no group and adds none |
| MenuPerformance.RankMenuPerformance | KeuanganPadang/client/src/pages/menu-performance.tsx:69-75 | rows ranked 1, 2, ... in descending revenue, a permutation of the groups with their averages |
| MenuPerformance.MenuPerformanceArray | KeuanganPadang/client/src/pages/menu-performance.tsx:69-75 | the whole page pipeline: grouped, averaged, sorted by revenue, ranked (stated by MenuPerformance.RankMenuPerformance, MenuPerformance.BestSeller and MenuPerformance.Conservation) |
| MenuPerformance.RowsCarryMeans | KeuanganPadang/client/src/pages/menu-performance.tsx:71 | every row's average price is the mean of its own group's prices |
| MenuPerformance.SortedStatHasMean | KeuanganPadang/client/src/pages/menu-performance.tsx:71-72 | the average stays with its group through the sort |
| MenuPerformance.TiesKeepFirstSeenOrder | KeuanganPadang/client/src/pages/menu-performance.tsx:72 | items with equal revenue stay in the order of their first sale |
| MenuPerformance.TieOrder | KeuanganPadang/client/src/pages/menu-performance.tsx:72 | the same, stated for one pair of rows |
| MenuPerformance.StatsInFirstSeenOrder | KeuanganPadang/client/src/pages/menu-performance.tsx:69-71 | before the sort, the groups come in order of their first sale |
| MenuPerformance.Conservation | KeuanganPadang/client/src/pages/menu-performance.tsx:91-92 | the page's total revenue and total quantity are those of all the input sales |
| MenuPerformance.AverageIsMeanOfUnitPrices | KeuanganPadang/client/src/pages/menu-performance.tsx:71 | the average is of the unit prices, not of revenue over quantity: one plate at 10 and three at 20 average 15, not 17.5 |
| MenuPerformance.BadgesByPosition | KeuanganPadang/client/src/pages/menu-performance.tsx:85-89 | rows 1-3 get "default", rows 4-6 "secondary", the rest "outline" |
| MenuPerformance.PerformanceBadge | KeuanganPadang/client/src/pages/menu-performance.tsx:85-89 | `getPerformanceBadge`: "default" up to rank 3, "secondary" up to 6, else "outline" (stated per row by MenuPerformance.BadgesByPosition) |
| MenuPerformance.TotalRevenue | KeuanganPadang/client/src/pages/menu-performance.tsx:91 | the rows' revenue total (equal to the input sales' total by MenuPerformance.Conservation) |
| MenuPerformance.TotalQuantitySold | KeuanganPadang/client/src/pages/menu-performance.tsx:92 | the rows' quantity total (equal to the input sales' quantity by MenuPerformance.Conservation) |
| MenuPerformance.BestSellingMenu | KeuanganPadang/client/src/pages/menu-performance.tsx:93 | the first row, present exactly when there are rows |
| MenuPerformance.BestSellerLabel | KeuanganPadang/client/src/pages/menu-performance.tsx:196 | `bestSellingMenu?.menuItem || "N/A"` (stated by MenuPerformance.BestSeller) |
| MenuPerformance.BestSeller | KeuanganPadang/client/src/pages/menu-performance.tsx:93-196 | with no sales the card says "N/A"; otherwise the best seller is ranked 1 and no item has more revenue |
| MenuPerformance.TopRow | KeuanganPadang/client/src/pages/menu-performance.tsx:93 | the first row of a ranked list is ranked 1 and has the highest revenue |
| MenuPerformance.RankingExample | KeuanganPadang/client/src/pages/menu-performance.tsx:41-75 | worked example: two Rendang sales worth 50 and 40 rank above one Ayam Pop sale worth 80 |
| MenuPerformance.TwoGroupsRanked | KeuanganPadang/client/src/pages/menu-performance.tsx:72-75 | worked example: two groups with different revenues are ranked by revenue |
| Categories.Find | KeuanganPadang/client/src/pages/sales.tsx:299 | `find` by value: found exactly when some option has that value |
| Categories.Label | KeuanganPadang/client/src/pages/sales.tsx:299 | `find(...)?.label || value` (stated by Categories.LabelLookup and Categories.LabelFallback) |
| Categories.LabelLookup | KeuanganPadang/client/src/pages/sales.tsx:299 | a listed value shows the label of its first option |
| Categories.LabelFallback | KeuanganPadang/client/src/pages/sales.tsx:299 | a value missing from the list is shown as it is |
| Categories.SalesLabels | KeuanganPadang/client/src/pages/sales.tsx:57-63 | "dine-in" shows "Dine In" and "catering" shows "Catering" |
| Categories.ExpenseLabels | KeuanganPadang/client/src/pages/expenses.tsx:57-65 | "utilitas" shows "Listrik & Air" |
| Categories.UnlistedSalesCategoryShownRaw | KeuanganPadang/client/src/pages/sales.tsx:299 | an unlisted sales category is shown raw |
| Categories.UnlistedExpenseCategoryShownRaw | KeuanganPadang/client/src/pages/expenses.tsx:299 | an unlisted expense category is shown raw |
| SalesPage.FilterSales | KeuanganPadang/client/src/pages/sales.tsx:65-71 | keeps exactly the sales that match the category ("all" matches any) and the search (empty matches any, otherwise the lower-cased menu item or notes contain it), in order |
| SalesPage.NoFilterKeepsAll | KeuanganPadang/client/src/pages/sales.tsx:65-71 | "all" with an empty search shows every sale |
| SalesPage.RejectedSaleIgnored | KeuanganPadang/client/src/pages/sales.tsx:65-71 | a sale the filter rejects is not shown |
| SalesPage.FilterSnoc | KeuanganPadang/client/src/pages/sales.tsx:65-71 | a matching sale is shown, after the earlier ones |
| SalesPage.FilterIdempotent | KeuanganPadang/client/src/pages/sales.tsx:65-71 | filtering an already filtered list changes nothing |
| SalesPage.Stats | KeuanganPadang/client/src/pages/sales.tsx:92-93 | the three cards: total, quantity and count of the shown sales (stated by SalesPage.StatsFollowFilter) |
| SalesPage.CategoryBadge | KeuanganPadang/client/src/pages/sales.tsx:82-90 | `getCategoryBadgeVariant` of the sales page (stated by SalesPage.BadgesDistinguishChannels) |
| SalesPage.StatsFollowFilter | KeuanganPadang/client/src/pages/sales.tsx:92-93 | the cards read the filtered list: a rejected sale changes none of them, a matching one adds its total, its quantity and one to the count |
| SalesPage.BadgesDistinguishChannels | KeuanganPadang/client/src/pages/sales.tsx:82-90 | the four channels get four different badges; any other category gets the dine-in badge |
| SalesPage.CsvRows | KeuanganPadang/client/src/pages/sales.tsx:97-107 | the header, then one row per shown sale in order, the same row as the sales report's |
| SalesPage.CsvFileIsOneLine | KeuanganPadang/client/src/pages/sales.tsx:97-108 | the download as built (`CsvFile`, rows joined by a backslash and `n`) is one single line |
| SalesPage.CsvFileLines | KeuanganPadang/client/src/pages/sales.tsx:97-108 | the corrected download (`CsvFileCorrected`) splits back into the header line and one line per shown sale |
| SalesPage.CsvFile | KeuanganPadang/client/src/pages/sales.tsx:97-108 | the download as written (stated by SalesPage.CsvFileIsOneLine) |
| SalesPage.CsvFileCorrected | KeuanganPadang/client/src/pages/sales.tsx:97-108 | the download with real line breaks (stated by SalesPage.CsvFileLines) |
| ExpensesPage.FilterExpenses | KeuanganPadang/client/src/pages/expenses.tsx:66-72 | keeps exactly the expenses that match the category and the search in the description or notes, in order |
| ExpensesPage.NoFilterKeepsAll | KeuanganPadang/client/src/pages/expenses.tsx:66-72 | "all" with an empty search shows every expense |
| ExpensesPage.RejectedExpenseIgnored | KeuanganPadang/client/src/pages/expenses.tsx:66-72 | an expense the filter rejects leaves the shown list unchanged |
| ExpensesPage.FilterSnoc | KeuanganPadang/client/src/pages/expenses.tsx:66-72 | a matching expense is shown once, after the earlier ones |
| ExpensesPage.TotalExpenses | KeuanganPadang/client/src/pages/expenses.tsx:95 | the total of the shown expenses (stated by ExpensesPage.TotalFollowsFilter and ExpensesPage.AveragePerTransaction) |
| ExpensesPage.TotalFollowsFilter | KeuanganPadang/client/src/pages/expenses.tsx:66-95 | the total card reads the filtered list: a rejected expense changes nothing, a matching one adds its amount and one to the count |
| ExpensesPage.AveragePerTransaction | KeuanganPadang/client/src/pages/expenses.tsx:189 | zero when nothing is shown; otherwise it times the count is the total |
| ExpensesPage.AverageOfEqualAmounts | KeuanganPadang/client/src/pages/expenses.tsx:95-189 | equal amounts average to that amount |
| ExpensesPage.EqualAmountsTotal | KeuanganPadang/client/src/pages/expenses.tsx:95 | equal amounts total the count times the amount |
| ExpensesPage.BadgeSharing | KeuanganPadang/client/src/pages/expenses.tsx:84-93 | raw materials and transport share a badge; unlisted categories get "outline"; four categories get four different badges |
| ExpensesPage.CategoryBadge | KeuanganPadang/client/src/pages/expenses.tsx:84-93 | `getCategoryBadgeVariant` of the expenses page (stated by ExpensesPage.BadgeSharing) |
| ExpensesPage.CsvRows | KeuanganPadang/client/src/pages/expenses.tsx:98-107 | the header, then one row per shown expense in order, the same row as the expense report's |
| ExpensesPage.CsvFileIsOneLine | KeuanganPadang/client/src/pages/expenses.tsx:98-108 | the download as built (`CsvFile`) is one single line |
| ExpensesPage.CsvFileLines | KeuanganPadang/client/src/pages/expenses.tsx:98-108 | the corrected download (`CsvFileCorrected`) splits back into the header line and one line per shown expense |
| ExpensesPage.CsvFile | KeuanganPadang/client/src/pages/expenses.tsx:98-108 | the download as written (stated by ExpensesPage.CsvFileIsOneLine) |
| ExpensesPage.CsvFileCorrected | KeuanganPadang/client/src/pages/expenses.tsx:98-108 | the download with real line breaks (stated by ExpensesPage.CsvFileLines) |
| RecentTransactions.SortByIdDesc | KeuanganPadang/client/src/components/recent-transactions.tsx:49 | a permutation in descending id order |
| RecentTransactions.SaleItem | KeuanganPadang/client/src/components/recent-transactions.tsx:27-37 | a sale as a card entry: "Penjualan " and its menu item, category "Penjualan", its total (stated by RecentTransactions.RowShapes) |
| RecentTransactions.ExpenseItem | KeuanganPadang/client/src/components/recent-transactions.tsx:38-48 | an expense as a card entry with its own description, amount and category (stated by RecentTransactions.RowShapes) |
| RecentTransactions.Candidates | KeuanganPadang/client/src/components/recent-transactions.tsx:26-48 | the first five sales and the first five expenses before the sort (stated by RecentTransactions.OnCard and RecentTransactions.Recent) |
| RecentTransactions.Recent | KeuanganPadang/client/src/components/recent-transactions.tsx:26-49 | the card's list: as many entries as the first five sales and the first five expenses (at most ten), exactly those entries, sorted by id descending, empty exactly when both lists are |
| RecentTransactions.OnCard | KeuanganPadang/client/src/components/recent-transactions.tsx:26-49 | an entry is on the card exactly when it comes from the first five sales or expenses |
| RecentTransactions.SalesShown | KeuanganPadang/client/src/components/recent-transactions.tsx:27-37 | each of the first five sales is shown |
| RecentTransactions.ExpensesShown | KeuanganPadang/client/src/components/recent-transactions.tsx:38-48 | each of the first five expenses is shown |
| RecentTransactions.OnlyFirstFive | KeuanganPadang/client/src/components/recent-transactions.tsx:27-48 | every entry comes from one of the first five sales or expenses |
| RecentTransactions.RowShapes | KeuanganPadang/client/src/components/recent-transactions.tsx:27-48 | a sale row reads "Penjualan " and its menu item, under category "Penjualan", with its total; an expense row carries its description, category and amount |
| RecentTransactions.NoTransactionsIffEmpty | KeuanganPadang/client/src/components/recent-transactions.tsx:78-81 | the empty message shows exactly when there are no sales and no expenses |
| SalesModal.Defaults | KeuanganPadang/client/src/components/modals/sales-modal.tsx:44-52 | quantity 1, category "dine-in", price and total "0", empty menu item and notes, the current time |
| SalesModal.QuantityInput | KeuanganPadang/client/src/components/modals/sales-modal.tsx:164 | the quantity is never 0: an unparseable or zero input becomes 1, any other number is kept |
| SalesModal.Times | KeuanganPadang/client/src/components/modals/sales-modal.tsx:81 | a NaN price gives NaN; otherwise the product |
| SalesModal.Preview | KeuanganPadang/client/src/components/modals/sales-modal.tsx:91 | zero for an unparseable price or a zero quantity, otherwise price times quantity |
| SalesModal.Submit | KeuanganPadang/client/src/components/modals/sales-modal.tsx:79-86 | the total submitted is price times quantity, whatever the total field held; every other field is passed on |
| SalesModal.SubmittedTotalIgnoresFormTotal | KeuanganPadang/client/src/components/modals/sales-modal.tsx:81-84 | the submission does not depend on the form's total field |
| SalesModal.PreviewAgreesWithSubmit | KeuanganPadang/client/src/components/modals/sales-modal.tsx:79-91 | for a parseable price the preview is the total submitted; for an unparseable one the preview is 0 and the submission carries NaN |
| SalesModal.DefaultsPreviewZero | KeuanganPadang/client/src/components/modals/sales-modal.tsx:44-52 | the untouched form previews 0 and submits a total of 0 |
| MobileDashboard.NetIncome | MobileChart/client/src/pages/dashboard.tsx:82-90 | net income plus total expense is total income |
| MobileDashboard.TotalIncome | MobileChart/client/src/pages/dashboard.tsx:82-84 | the sum of the income rows (stated by MobileDashboard.TotalsByRow and MobileDashboard.IncomeExpensePartition) |
| MobileDashboard.TotalExpense | MobileChart/client/src/pages/dashboard.tsx:86-88 | the sum of the expense rows (stated by MobileDashboard.TotalsByRow and MobileDashboard.IncomeExpensePartition) |
| MobileDashboard.TotalsByRow | MobileChart/client/src/pages/dashboard.tsx:82-88 | the filtered totals are sums of each row's income or expense share |
| MobileDashboard.IncomeExpensePartition | MobileChart/client/src/pages/dashboard.tsx:82-88 | when every row is income or expense, the two totals split the sum of all amounts |
| MobileDashboard.RowShares | MobileChart/client/src/pages/dashboard.tsx:82-88 | the shares of each row add up to its amount |
| MobileDashboard.TransactionTotals | MobileChart/client/src/pages/dashboard.tsx:13-22 | worked example: the demo transactions total 8,450,000 income, 1,600,000 expense and 6,850,000 net |
| MobileDashboard.Equity | MobileChart/client/src/pages/dashboard.tsx:104 | total liabilities plus equity is total assets |
| MobileDashboard.TotalAssets | MobileChart/client/src/pages/dashboard.tsx:92-96 | current plus fixed assets (stated with equity by MobileDashboard.Equity) |
| MobileDashboard.TotalLiabilities | MobileChart/client/src/pages/dashboard.tsx:98-102 | current plus long-term liabilities (stated with equity by MobileDashboard.Equity) |
| MobileDashboard.Difference | MobileChart/client/src/pages/dashboard.tsx:977-981 | "Selisih": the gap between assets and liabilities plus equity (always zero by MobileDashboard.AlwaysBalanced) |
| MobileDashboard.RetainedEarnings | MobileChart/client/src/pages/dashboard.tsx:954-960 | the initial capital of 500,000,000 plus retained earnings is equity |
| MobileDashboard.AlwaysBalanced | MobileChart/client/src/pages/dashboard.tsx:977-981 | the balance check always shows a zero gap, because equity is defined to close it |
| MobileDashboard.SheetFigures | MobileChart/client/src/pages/dashboard.tsx:53-104 | worked example: the demo sheet: assets 755,000,000, liabilities 214,500,000, equity 540,500,000, retained earnings 40,500,000 |
| MobileDashboard.TotalDailySales | MobileChart/client/src/pages/dashboard.tsx:106-109 | the four channels of the latest day |
| MobileDashboard.EarlierDaysIgnored | MobileChart/client/src/pages/dashboard.tsx:106-109 | earlier days never change the figure |
| MobileDashboard.LatestDayTotal | MobileChart/client/src/pages/dashboard.tsx:24-32 | worked example: the demo's latest day totals 7,700,000 |
| MobileDashboard.PerformanceTier | MobileChart/client/src/pages/dashboard.tsx:629 | excellent exactly from 70 sold, good exactly from 50 to 69, average exactly below 50 |
| MobileDashboard.TierMonotone | MobileChart/client/src/pages/dashboard.tsx:688 | selling more never lowers the tier |
| MobileDashboard.DashboardState.constructor | MobileChart/client/src/pages/dashboard.tsx:7-9 | starts on "overview" with the navigation closed |
| MobileDashboard.DashboardState.HandleTabChange | MobileChart/client/src/pages/dashboard.tsx:154-157 | selects the tab and closes the navigation |
| MobileDashboard.DashboardState.CloseMobileNav | MobileChart/client/src/pages/dashboard.tsx:159-161 | closes the navigation and keeps the tab |
| MobileDashboard.DashboardState.OpenMobileNav | MobileChart/client/src/pages/dashboard.tsx:226 | opens the navigation and keeps the tab |
| MobileDashboard.OpenThenChoose | MobileChart/client/src/pages/dashboard.tsx:154-226 | opening the navigation and then picking a tab shows that tab with the navigation closed |

## Left out

- `DatabaseStorage` (`database-storage.ts`), the store that runs in production, is not part of this model. It lists in ascending order and orders range queries by datetime. The routes are modelled over `MemStorage`.
- Authentication (`isAuthenticated`), the user route, the 500 answers and everything else about HTTP transport and JSON are left out. Only the store calls and the status codes are modelled.
- The GET routes for assets, capital and liabilities are not modelled separately. Each returns the store's list unchanged and is `GetAssets`, `GetCapital` or `GetLiabilities`.
- Date handling is abstract:
  - the calendar arithmetic of `getDateRange`, time zones and `toISOString` are left out; the month and year bounds are inputs;
  - `new Date(string)` is the `DateParser` parameter;
  - local midnight is the `startOfDay` input.
- Floating point is left out. Amounts are exact cents and averages are exact reals, so rounding, `toFixed` and `NaN` in stored amounts are not modelled. The one `NaN` that matters, an unparseable price in the sales form, is modelled.
- Locale and library formatting are abstract functions: `Intl.NumberFormat`, `toLocaleDateString`, `toLocaleTimeString` and `Number#toString`. The recent-transactions `time` field keeps the raw datetime.
- `String#localeCompare` is modelled as plain lexicographic order by character code.
- `toLowerCase` is an abstract function, so no Unicode case mapping is modelled.
- The menu-performance CSV (`menu-performance.tsx:95-110`) and the balance-sheet CSV (`balance-sheet.tsx:139-159`) are left out. They are layouts of figures whose properties the model already states.
- JavaScript objects used as dictionaries are ordered entry lists. Integer-like keys, which JavaScript enumerates first, and inherited prototype keys are not modelled.
- The other modals (expense, asset, capital, liability) are left out except for their option lists. They are form plumbing with no computation beyond the schema.
- The charts, the layout, the landing page and every other presentational component are left out.
- The MobileChart dashboard's `dateRange` state is left out because it changes nothing computed. The menu margin (`toFixed(1)`) and `avgOrderValue` are floating-point display values; the model keeps only the tier rule from those rows.
- RecentTransactions.SortByIdDesc: does not state that the sort is stable. Ties need equal ids, and the ids are UUIDs.

## Findings

| source | as written | input that shows it | evidently intended | confidence | as-written member | corrected member |
|---|---|---|---|---|---|---|
| KeuanganPadang/client/src/pages/reports.tsx:78 (likewise reports.tsx:115, reports.tsx:169, sales.tsx:108, expenses.tsx:108, and in the two CSVs left out of the model, menu-performance.tsx:110 and balance-sheet.tsx:159) | rows are joined with `"\\n"`, a backslash followed by `n`, so the downloaded CSV is one line | the rows `a` and `b` give the one-line text `a\nb` | rows separated by line breaks, one CSV line per row | not executed | Csv.AsWrittenIsOneLine | Csv.RenderSplitsIntoRows |

The five downloads are modelled as written: `Reports.SalesReport`, `Reports.ExpenseReport`,
`Reports.TransactionReport`, `SalesPage.CsvFile` and `ExpensesPage.CsvFile` join their rows with
a backslash and `n`, and their `IsOneLine` lemmas show each file is one line. Each has a
`Corrected` twin (`CsvFileCorrected` on the list pages) that joins with real line breaks; its
`Lines` lemma shows the file splits back into one line per row.
