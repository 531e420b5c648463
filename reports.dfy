/** The reports page: income and expense totals, the merged transaction list, the
    three CSV exports and the preview table. */
module Reports {
  import opened Wrappers
  import opened Seqs
  import opened Sorting
  import opened Ledger
  import opened Text
  import opened Csv
  import opened Storage
  import opened Routes

  // ----- the period -----

  datatype DateRange = DateRange(startDate: string, endDate: string)

  /** `getDateRange`: `month` and `year` are the ISO day strings the page computes for
      the selected month and year. */
  function GetDateRange(period: string, month: DateRange, year: DateRange): (r: DateRange)
    ensures period == "current-month" ==> r == month
    ensures period == "current-year" ==> r == year
    ensures period != "current-month" && period != "current-year" ==> r == DateRange("", "")
  {
    if period == "current-month" then month
    else if period == "current-year" then year
    else DateRange("", "")
  }

  /** For any other period the page sends empty bounds, and the server lists everything. */
  lemma OtherPeriodListsEverything(store: MemStorage, period: string, month: DateRange, year: DateRange,
                                   parse: DateParser)
    requires store.Valid()
    requires period != "current-month" && period != "current-year"
    ensures var r := GetDateRange(period, month, year);
      && ListSales(store, Some(r.startDate), Some(r.endDate), parse) == store.GetSales()
      && ListExpenses(store, Some(r.startDate), Some(r.endDate), parse) == store.GetExpenses()
  {
  }

  // ----- totals -----

  function TotalSales(sales: seq<Sale>): Money { Sum(sales, SaleTotal) }
  function TotalExpenses(expenses: seq<Expense>): Money { Sum(expenses, ExpenseAmount) }
  function NetIncome(sales: seq<Sale>, expenses: seq<Expense>): Money
  {
    TotalSales(sales) - TotalExpenses(expenses)
  }

  // ----- the merged list -----

  /** One line of the merged list; `id` is set in the preview table only. */
  datatype ReportTransaction = ReportTransaction(
    id: Option<Id>, date: Time, kind: string, description: string, amount: Money, isIncome: bool)

  function EntryDate(t: ReportTransaction): int { t.date }
  /** The "Jumlah" column: income positive, expense negative. */
  function SignedAmount(t: ReportTransaction): int { if t.isIncome then t.amount else -t.amount }
  function IncomeCount(t: ReportTransaction): int { if t.isIncome then 1 else 0 }
  function OutgoCount(t: ReportTransaction): int { if t.isIncome then 0 else 1 }

  function SaleEntry(s: Sale): ReportTransaction
  {
    ReportTransaction(None, s.datetime, "Penjualan", "Penjualan " + s.menuItem + " (" + s.category + ")", s.total, true)
  }

  function ExpenseEntry(e: Expense): ReportTransaction
  {
    ReportTransaction(None, e.datetime, "Pengeluaran", e.category + " - " + e.description, e.amount, false)
  }

  /** `allTransactions`: every sale and every expense, newest first (ties keep sales first). */
  function AllTransactions(sales: seq<Sale>, expenses: seq<Expense>): (r: seq<ReportTransaction>)
    ensures |r| == |sales| + |expenses|
    ensures SortedDesc(r, EntryDate)
    ensures multiset(r) == multiset(MapSeq(sales, SaleEntry) + MapSeq(expenses, ExpenseEntry))
  {
    SortDesc(MapSeq(sales, SaleEntry) + MapSeq(expenses, ExpenseEntry), EntryDate)
  }

  /** The merged list holds one income line per sale and one expense line per expense,
      and its signed amounts add up to the net income. */
  lemma AllTransactionsAccounting(sales: seq<Sale>, expenses: seq<Expense>)
    ensures Sum(AllTransactions(sales, expenses), IncomeCount) == |sales|
    ensures Sum(AllTransactions(sales, expenses), OutgoCount) == |expenses|
    ensures Sum(AllTransactions(sales, expenses), SignedAmount) == NetIncome(sales, expenses)
  {
    IncomeLines(sales, expenses);
    OutgoLines(sales, expenses);
    SignedTotal(sales, expenses);
  }

  lemma IncomeLines(sales: seq<Sale>, expenses: seq<Expense>)
    ensures Sum(AllTransactions(sales, expenses), IncomeCount) == |sales|
  {
    var merged := MapSeq(sales, SaleEntry) + MapSeq(expenses, ExpenseEntry);
    SumSortDesc(merged, EntryDate, IncomeCount);
    SumAppend(MapSeq(sales, SaleEntry), MapSeq(expenses, ExpenseEntry), IncomeCount);
    SumMapSeq(sales, SaleEntry, IncomeCount, OneSale);
    SumMapSeq(expenses, ExpenseEntry, IncomeCount, NoExpense);
    CountAll(sales);
    CountAllExpenses(expenses);
  }

  lemma OutgoLines(sales: seq<Sale>, expenses: seq<Expense>)
    ensures Sum(AllTransactions(sales, expenses), OutgoCount) == |expenses|
  {
    var merged := MapSeq(sales, SaleEntry) + MapSeq(expenses, ExpenseEntry);
    SumSortDesc(merged, EntryDate, OutgoCount);
    SumAppend(MapSeq(sales, SaleEntry), MapSeq(expenses, ExpenseEntry), OutgoCount);
    SumMapSeq(sales, SaleEntry, OutgoCount, NoSale);
    SumMapSeq(expenses, ExpenseEntry, OutgoCount, OneExpense);
    CountAll(sales);
    CountAllExpenses(expenses);
  }

  lemma SignedTotal(sales: seq<Sale>, expenses: seq<Expense>)
    ensures Sum(AllTransactions(sales, expenses), SignedAmount) == NetIncome(sales, expenses)
  {
    var merged := MapSeq(sales, SaleEntry) + MapSeq(expenses, ExpenseEntry);
    SumSortDesc(merged, EntryDate, SignedAmount);
    SumAppend(MapSeq(sales, SaleEntry), MapSeq(expenses, ExpenseEntry), SignedAmount);
    SumMapSeq(sales, SaleEntry, SignedAmount, SaleTotal);
    SumMapSeq(expenses, ExpenseEntry, SignedAmount, NegatedAmount);
    SumNegated(expenses);
  }

  function OneSale(s: Sale): int { 1 }
  function NoSale(s: Sale): int { 0 }
  function OneExpense(e: Expense): int { 1 }
  function NoExpense(e: Expense): int { 0 }
  function NegatedAmount(e: Expense): int { -e.amount }

  lemma {:induction false} CountAll(sales: seq<Sale>)
    ensures Sum(sales, OneSale) == |sales| && Sum(sales, NoSale) == 0
  {
    if sales != [] { CountAll(sales[1..]); }
  }

  lemma {:induction false} CountAllExpenses(expenses: seq<Expense>)
    ensures Sum(expenses, OneExpense) == |expenses| && Sum(expenses, NoExpense) == 0
  {
    if expenses != [] { CountAllExpenses(expenses[1..]); }
  }

  lemma {:induction false} SumNegated(expenses: seq<Expense>)
    ensures Sum(expenses, NegatedAmount) == -Sum(expenses, ExpenseAmount)
  {
    if expenses != [] { SumNegated(expenses[1..]); }
  }

  // ----- the CSV exports -----

  function PeriodLabel(period: string, month: string, year: string): string
  {
    if period == "current-month" then "Bulan " + month + "/" + year else "Tahun " + year
  }

  /** Title, period, print date and a blank line. */
  function Preamble(title: string, period: string, month: string, year: string, now: Time, fmt: Formats):
    seq<seq<string>>
  {
    [[title, ""], ["Periode", PeriodLabel(period, month, year)], ["Tanggal Cetak", fmt.date(now)], ["", ""]]
  }

  const SalesHeader: seq<string> := ["Tanggal", "Menu", "Kategori", "Qty", "Harga", "Total", "Catatan"]

  function SaleRow(s: Sale, fmt: Formats): seq<string>
  {
    [fmt.date(s.datetime), s.menuItem, s.category, fmt.number(s.quantity), fmt.decimal(s.price),
     fmt.decimal(s.total), s.notes.GetOr("")]
  }

  function SaleRows(sales: seq<Sale>, fmt: Formats): (r: seq<seq<string>>)
    ensures |r| == |sales|
    ensures forall i :: 0 <= i < |sales| ==> r[i] == SaleRow(sales[i], fmt)
  {
    if sales == [] then [] else [SaleRow(sales[0], fmt)] + SaleRows(sales[1..], fmt)
  }

  /** The rows of the sales report. */
  function SalesReportRows(sales: seq<Sale>, period: string, month: string, year: string, now: Time,
                           fmt: Formats): (r: seq<seq<string>>)
    ensures |r| == 5 + |sales| + 5
    ensures r[..4] == Preamble("LAPORAN PENJUALAN", period, month, year, now, fmt)
    ensures r[4] == SalesHeader
    ensures forall i :: 0 <= i < |sales| ==> r[5 + i] == SaleRow(sales[i], fmt) && |r[5 + i]| == 7
    ensures r[5 + |sales|..] == [["", ""], ["RINGKASAN", ""],
                                 ["Total Penjualan", fmt.currency(TotalSales(sales))],
                                 ["Total Transaksi", fmt.number(|sales|)],
                                 ["Total Qty", fmt.number(Sum(sales, SaleQuantity))]]
  {
    var head := Preamble("LAPORAN PENJUALAN", period, month, year, now, fmt) + [SalesHeader];
    var body := SaleRows(sales, fmt);
    var summary := [["", ""], ["RINGKASAN", ""],
       ["Total Penjualan", fmt.currency(TotalSales(sales))],
       ["Total Transaksi", fmt.number(|sales|)],
       ["Total Qty", fmt.number(Sum(sales, SaleQuantity))]];
    Layout(head, body, summary);
    head + body + summary
  }

  /** Where the parts of a report land. */
  lemma Layout(head: seq<seq<string>>, body: seq<seq<string>>, summary: seq<seq<string>>)
    ensures var r := head + body + summary;
      && |r| == |head| + |body| + |summary|
      && r[..|head|] == head
      && (forall i :: 0 <= i < |body| ==> r[|head| + i] == body[i])
      && r[|head| + |body|..] == summary
  {
    var r := head + body + summary;
    assert r[..|head|] == head;
    assert r[|head| + |body|..] == summary;
  }

  /** The downloaded sales report as the page builds it: the rows are joined by a
      backslash and `n`. */
  function SalesReport(sales: seq<Sale>, period: string, month: string, year: string, now: Time,
                       fmt: Formats): string
  {
    RenderAsWritten(SalesReportRows(sales, period, month, year, now, fmt))
  }

  /** As built, the sales report is a single line, however many sales there are. */
  lemma SalesReportIsOneLine(sales: seq<Sale>, period: string, month: string, year: string, now: Time,
                             fmt: Formats)
    requires NoLineBreaks(SalesReportRows(sales, period, month, year, now, fmt))
    ensures Split(SalesReport(sales, period, month, year, now, fmt), '\n') ==
      [SalesReport(sales, period, month, year, now, fmt)]
  {
    AsWrittenIsOneLine(SalesReportRows(sales, period, month, year, now, fmt));
  }

  /** The sales report with real line breaks between its rows. */
  function SalesReportCorrected(sales: seq<Sale>, period: string, month: string, year: string,
                                now: Time, fmt: Formats): string
  {
    Render(SalesReportRows(sales, period, month, year, now, fmt))
  }

  /** When no field holds a line break, the corrected sales report has exactly
      |sales| + 10 lines, one per row. */
  lemma SalesReportLines(sales: seq<Sale>, period: string, month: string, year: string, now: Time,
                         fmt: Formats)
    requires NoLineBreaks(SalesReportRows(sales, period, month, year, now, fmt))
    ensures Split(SalesReportCorrected(sales, period, month, year, now, fmt), '\n') ==
      Lines(SalesReportRows(sales, period, month, year, now, fmt))
    ensures |Split(SalesReportCorrected(sales, period, month, year, now, fmt), '\n')| == |sales| + 10
  {
    RenderSplitsIntoRows(SalesReportRows(sales, period, month, year, now, fmt));
  }

  const ExpenseHeader: seq<string> := ["Tanggal", "Kategori", "Deskripsi", "Jumlah", "Metode Bayar", "Catatan"]

  function ExpenseRow(e: Expense, fmt: Formats): seq<string>
  {
    [fmt.date(e.datetime), e.category, e.description, fmt.decimal(e.amount), e.paymentMethod,
     e.notes.GetOr("")]
  }

  function ExpenseRows(expenses: seq<Expense>, fmt: Formats): (r: seq<seq<string>>)
    ensures |r| == |expenses|
    ensures forall i :: 0 <= i < |expenses| ==> r[i] == ExpenseRow(expenses[i], fmt)
  {
    if expenses == [] then [] else [ExpenseRow(expenses[0], fmt)] + ExpenseRows(expenses[1..], fmt)
  }

  /** The rows of the expense report. */
  function ExpenseReportRows(expenses: seq<Expense>, period: string, month: string, year: string,
                             now: Time, fmt: Formats): (r: seq<seq<string>>)
    ensures |r| == 5 + |expenses| + 4
    ensures r[..4] == Preamble("LAPORAN PENGELUARAN", period, month, year, now, fmt)
    ensures r[4] == ExpenseHeader
    ensures forall i :: 0 <= i < |expenses| ==> r[5 + i] == ExpenseRow(expenses[i], fmt) && |r[5 + i]| == 6
    ensures r[5 + |expenses|..] == [["", ""], ["RINGKASAN", ""],
                                    ["Total Pengeluaran", fmt.currency(TotalExpenses(expenses))],
                                    ["Total Transaksi", fmt.number(|expenses|)]]
  {
    var head := Preamble("LAPORAN PENGELUARAN", period, month, year, now, fmt) + [ExpenseHeader];
    var body := ExpenseRows(expenses, fmt);
    var summary := [["", ""], ["RINGKASAN", ""],
       ["Total Pengeluaran", fmt.currency(TotalExpenses(expenses))],
       ["Total Transaksi", fmt.number(|expenses|)]];
    Layout(head, body, summary);
    head + body + summary
  }

  /** The downloaded expense report as the page builds it, rows joined by a backslash
      and `n`. */
  function ExpenseReport(expenses: seq<Expense>, period: string, month: string, year: string,
                         now: Time, fmt: Formats): string
  {
    RenderAsWritten(ExpenseReportRows(expenses, period, month, year, now, fmt))
  }

  lemma ExpenseReportIsOneLine(expenses: seq<Expense>, period: string, month: string, year: string,
                               now: Time, fmt: Formats)
    requires NoLineBreaks(ExpenseReportRows(expenses, period, month, year, now, fmt))
    ensures Split(ExpenseReport(expenses, period, month, year, now, fmt), '\n') ==
      [ExpenseReport(expenses, period, month, year, now, fmt)]
  {
    AsWrittenIsOneLine(ExpenseReportRows(expenses, period, month, year, now, fmt));
  }

  /** The expense report with real line breaks between its rows. */
  function ExpenseReportCorrected(expenses: seq<Expense>, period: string, month: string, year: string,
                                  now: Time, fmt: Formats): string
  {
    Render(ExpenseReportRows(expenses, period, month, year, now, fmt))
  }

  lemma ExpenseReportLines(expenses: seq<Expense>, period: string, month: string, year: string,
                           now: Time, fmt: Formats)
    requires NoLineBreaks(ExpenseReportRows(expenses, period, month, year, now, fmt))
    ensures Split(ExpenseReportCorrected(expenses, period, month, year, now, fmt), '\n') ==
      Lines(ExpenseReportRows(expenses, period, month, year, now, fmt))
    ensures |Split(ExpenseReportCorrected(expenses, period, month, year, now, fmt), '\n')| == |expenses| + 9
  {
    RenderSplitsIntoRows(ExpenseReportRows(expenses, period, month, year, now, fmt));
  }

  const TransactionHeader: seq<string> := ["Tanggal", "Tipe", "Deskripsi", "Jumlah", "Kategori"]

  function TransactionRow(t: ReportTransaction, fmt: Formats): seq<string>
  {
    [fmt.date(t.date), t.kind, t.description, fmt.amount(SignedAmount(t)),
     if t.isIncome then "Pemasukan" else "Pengeluaran"]
  }

  function TransactionRows(ts: seq<ReportTransaction>, fmt: Formats): (r: seq<seq<string>>)
    ensures |r| == |ts|
    ensures forall i :: 0 <= i < |ts| ==> r[i] == TransactionRow(ts[i], fmt)
  {
    if ts == [] then [] else [TransactionRow(ts[0], fmt)] + TransactionRows(ts[1..], fmt)
  }

  /** One row per entry of the merged list, in its order. */
  function TransactionBody(sales: seq<Sale>, expenses: seq<Expense>, fmt: Formats): (r: seq<seq<string>>)
    ensures |r| == |sales| + |expenses|
    ensures forall i :: 0 <= i < |sales| + |expenses| ==>
      r[i] == TransactionRow(AllTransactions(sales, expenses)[i], fmt)
  {
    TransactionRows(AllTransactions(sales, expenses), fmt)
  }

  /** The preamble and the column header of the transaction report. */
  function TransactionHead(period: string, month: string, year: string, now: Time, fmt: Formats):
    (r: seq<seq<string>>)
    ensures |r| == 5
    ensures r[..4] == Preamble("LAPORAN TRANSAKSI", period, month, year, now, fmt)
    ensures r[4] == TransactionHeader
  {
    var r := Preamble("LAPORAN TRANSAKSI", period, month, year, now, fmt) + [TransactionHeader];
    assert r[..4] == Preamble("LAPORAN TRANSAKSI", period, month, year, now, fmt);
    r
  }

  /** The closing rows: income, outgo and the net balance ("Saldo Bersih"). */
  function TransactionSummary(sales: seq<Sale>, expenses: seq<Expense>, fmt: Formats): (r: seq<seq<string>>)
    ensures r == [["", ""], ["RINGKASAN", ""],
                  ["Total Pemasukan", fmt.currency(TotalSales(sales))],
                  ["Total Pengeluaran", fmt.currency(TotalExpenses(expenses))],
                  ["Saldo Bersih", fmt.currency(NetIncome(sales, expenses))]]
  {
    [["", ""], ["RINGKASAN", ""],
     ["Total Pemasukan", fmt.currency(TotalSales(sales))],
     ["Total Pengeluaran", fmt.currency(TotalExpenses(expenses))],
     ["Saldo Bersih", fmt.currency(TotalSales(sales) - TotalExpenses(expenses))]]
  }

  /** The rows of the transaction report: the preamble and header, one row per entry of
      the merged list, and the summary. */
  function TransactionReportRows(sales: seq<Sale>, expenses: seq<Expense>, period: string, month: string,
                                 year: string, now: Time, fmt: Formats): (r: seq<seq<string>>)
    ensures |r| == 5 + |sales| + |expenses| + 5
    ensures r[..4] == Preamble("LAPORAN TRANSAKSI", period, month, year, now, fmt)
    ensures r[4] == TransactionHeader
    ensures forall i :: 0 <= i < |sales| + |expenses| ==>
      r[5 + i] == TransactionRow(AllTransactions(sales, expenses)[i], fmt)
    ensures r[5 + |sales| + |expenses|..] == TransactionSummary(sales, expenses, fmt)
  {
    var head := TransactionHead(period, month, year, now, fmt);
    var body := TransactionBody(sales, expenses, fmt);
    var summary := TransactionSummary(sales, expenses, fmt);
    Layout(head, body, summary);
    assert (head + body + summary)[..4] == head[..4];
    head + body + summary
  }

  /** The downloaded transaction report as the page builds it, rows joined by a
      backslash and `n`. */
  function TransactionReport(sales: seq<Sale>, expenses: seq<Expense>, period: string, month: string,
                             year: string, now: Time, fmt: Formats): string
  {
    RenderAsWritten(TransactionReportRows(sales, expenses, period, month, year, now, fmt))
  }

  lemma TransactionReportIsOneLine(sales: seq<Sale>, expenses: seq<Expense>, period: string,
                                   month: string, year: string, now: Time, fmt: Formats)
    requires NoLineBreaks(TransactionReportRows(sales, expenses, period, month, year, now, fmt))
    ensures Split(TransactionReport(sales, expenses, period, month, year, now, fmt), '\n') ==
      [TransactionReport(sales, expenses, period, month, year, now, fmt)]
  {
    AsWrittenIsOneLine(TransactionReportRows(sales, expenses, period, month, year, now, fmt));
  }

  /** The transaction report with real line breaks between its rows. */
  function TransactionReportCorrected(sales: seq<Sale>, expenses: seq<Expense>, period: string,
                                      month: string, year: string, now: Time, fmt: Formats): string
  {
    Render(TransactionReportRows(sales, expenses, period, month, year, now, fmt))
  }

  lemma TransactionReportLines(sales: seq<Sale>, expenses: seq<Expense>, period: string,
                               month: string, year: string, now: Time, fmt: Formats)
    requires NoLineBreaks(TransactionReportRows(sales, expenses, period, month, year, now, fmt))
    ensures Split(TransactionReportCorrected(sales, expenses, period, month, year, now, fmt), '\n') ==
      Lines(TransactionReportRows(sales, expenses, period, month, year, now, fmt))
    ensures |Split(TransactionReportCorrected(sales, expenses, period, month, year, now, fmt), '\n')| ==
      |sales| + |expenses| + 10
  {
    RenderSplitsIntoRows(TransactionReportRows(sales, expenses, period, month, year, now, fmt));
  }

  /** In the transaction report an income row is labelled "Pemasukan" and carries its
      amount, an expense row "Pengeluaran" and the negated amount. */
  lemma TransactionRowSigns(t: ReportTransaction, fmt: Formats)
    ensures t.isIncome ==> TransactionRow(t, fmt)[3] == fmt.amount(t.amount) && TransactionRow(t, fmt)[4] == "Pemasukan"
    ensures !t.isIncome ==> TransactionRow(t, fmt)[3] == fmt.amount(-t.amount) && TransactionRow(t, fmt)[4] == "Pengeluaran"
  {
  }

  // ----- the preview table -----

  function PreviewSaleEntry(s: Sale): ReportTransaction
  {
    ReportTransaction(Some(s.id), s.datetime, "Penjualan", s.menuItem + " (" + s.category + ")", s.total, true)
  }

  function PreviewExpenseEntry(e: Expense): ReportTransaction
  {
    ReportTransaction(Some(e.id), e.datetime, "Pengeluaran", e.category + " - " + e.description, e.amount, false)
  }

  /** The first five sales and the first five expenses, newest first. */
  function PreviewTransactions(sales: seq<Sale>, expenses: seq<Expense>): (r: seq<ReportTransaction>)
    ensures |r| == Min(5, |sales|) + Min(5, |expenses|) <= 10
    ensures SortedDesc(r, EntryDate)
    ensures multiset(r) == multiset(MapSeq(Take(sales, 5), PreviewSaleEntry) + MapSeq(Take(expenses, 5), PreviewExpenseEntry))
  {
    SortDesc(MapSeq(Take(sales, 5), PreviewSaleEntry) + MapSeq(Take(expenses, 5), PreviewExpenseEntry), EntryDate)
  }

  /** "Tidak ada data transaksi" shows exactly when the preview is empty. */
  predicate ShowsNoData(sales: seq<Sale>, expenses: seq<Expense>)
  {
    |sales| == 0 && |expenses| == 0
  }

  lemma NoDataIffEmptyPreview(sales: seq<Sale>, expenses: seq<Expense>)
    ensures ShowsNoData(sales, expenses) <==> PreviewTransactions(sales, expenses) == []
  {
  }
}
