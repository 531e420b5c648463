/** The expenses list page: the category and search filter, the total and the guarded
    average over what is shown, the category badges and labels, and the CSV download. */
module ExpensesPage {
  import opened Wrappers
  import opened Seqs
  import opened Text
  import opened Ledger
  import opened Csv

  import Reports

  predicate MatchesCategory(e: Expense, selected: string)
  {
    selected == "all" || e.category == selected
  }

  predicate MatchesSearch(e: Expense, term: string, lower: string -> string)
  {
    term == ""
    || Contains(lower(e.description), lower(term))
    || (e.notes.Some? && Contains(lower(e.notes.value), lower(term)))
  }

  /** `filteredExpenses`. */
  function FilterExpenses(expenses: seq<Expense>, selected: string, term: string, lower: string -> string):
    (r: seq<Expense>)
    ensures forall e :: e in r <==> e in expenses && MatchesCategory(e, selected) && MatchesSearch(e, term, lower)
    ensures Subseq(r, expenses)
  {
    if expenses == [] then []
    else
      var rest := FilterExpenses(expenses[1..], selected, term, lower);
      if MatchesCategory(expenses[0], selected) && MatchesSearch(expenses[0], term, lower) then
        assert ([expenses[0]] + rest)[1..] == rest;
        [expenses[0]] + rest
      else rest
  }

  lemma {:induction false} NoFilterKeepsAll(expenses: seq<Expense>, lower: string -> string)
    ensures FilterExpenses(expenses, "all", "", lower) == expenses
  {
    if expenses != [] {
      NoFilterKeepsAll(expenses[1..], lower);
    }
  }

  function TotalExpenses(filtered: seq<Expense>): Money
  {
    Sum(filtered, ExpenseAmount)
  }

  /** An expense the filter rejects changes nothing shown. */
  lemma {:induction false} RejectedExpenseIgnored(expenses: seq<Expense>, x: Expense, selected: string,
                                                  term: string, lower: string -> string)
    requires !(MatchesCategory(x, selected) && MatchesSearch(x, term, lower))
    ensures FilterExpenses(expenses + [x], selected, term, lower) == FilterExpenses(expenses, selected, term, lower)
  {
    if expenses != [] {
      assert (expenses + [x])[1..] == expenses[1..] + [x];
      RejectedExpenseIgnored(expenses[1..], x, selected, term, lower);
    }
  }

  /** An expense the filter keeps is shown once, after the earlier ones. */
  lemma {:induction false} FilterSnoc(expenses: seq<Expense>, x: Expense, selected: string, term: string,
                                      lower: string -> string)
    requires MatchesCategory(x, selected) && MatchesSearch(x, term, lower)
    ensures FilterExpenses(expenses + [x], selected, term, lower) ==
      FilterExpenses(expenses, selected, term, lower) + [x]
  {
    if expenses == [] {
      assert [x][1..] == [];
    } else {
      var ys := expenses + [x];
      assert ys[0] == expenses[0] && ys[1..] == expenses[1..] + [x];
      FilterSnoc(expenses[1..], x, selected, term, lower);
      var tail := FilterExpenses(expenses[1..], selected, term, lower);
      if MatchesCategory(expenses[0], selected) && MatchesSearch(expenses[0], term, lower) {
        assert ([expenses[0]] + tail) + [x] == [expenses[0]] + (tail + [x]);
      }
    }
  }

  /** The total card and the count follow the filter: adding an expense it rejects leaves
      them unchanged, adding one it keeps adds its amount and one to the count. */
  lemma TotalFollowsFilter(expenses: seq<Expense>, x: Expense, selected: string, term: string,
                           lower: string -> string)
    ensures var before := FilterExpenses(expenses, selected, term, lower);
      var after := FilterExpenses(expenses + [x], selected, term, lower);
      if MatchesCategory(x, selected) && MatchesSearch(x, term, lower) then
        TotalExpenses(after) == TotalExpenses(before) + x.amount && |after| == |before| + 1
      else after == before
  {
    if MatchesCategory(x, selected) && MatchesSearch(x, term, lower) {
      FilterSnoc(expenses, x, selected, term, lower);
      var f := FilterExpenses(expenses, selected, term, lower);
      SumAppend(f, [x], ExpenseAmount);
      assert [x][1..] == [];
    } else {
      RejectedExpenseIgnored(expenses, x, selected, term, lower);
    }
  }

  /** "Rata-rata per Transaksi": the total over the count, or 0 when nothing is shown. */
  function AveragePerTransaction(filtered: seq<Expense>): (r: real)
    ensures filtered == [] ==> r == 0.0
    ensures filtered != [] ==> r * (|filtered| as real) == TotalExpenses(filtered) as real
  {
    if |filtered| > 0 then (TotalExpenses(filtered) as real) / (|filtered| as real) else 0.0
  }

  /** Equal amounts average to that amount. */
  lemma {:induction false} AverageOfEqualAmounts(filtered: seq<Expense>, a: Money)
    requires filtered != []
    requires forall i :: 0 <= i < |filtered| ==> filtered[i].amount == a
    ensures AveragePerTransaction(filtered) == a as real
  {
    EqualAmountsTotal(filtered, a);
  }

  lemma {:induction false} EqualAmountsTotal(xs: seq<Expense>, a: Money)
    requires forall i :: 0 <= i < |xs| ==> xs[i].amount == a
    ensures TotalExpenses(xs) == |xs| * a
  {
    if xs != [] {
      EqualAmountsTotal(xs[1..], a);
    }
  }

  /** `getCategoryBadgeVariant` of the expenses page. */
  function CategoryBadge(category: string): string
  {
    match category
    case "bahan-baku" => "default"
    case "gaji" => "secondary"
    case "utilitas" => "outline"
    case "peralatan" => "destructive"
    case "transportasi" => "default"
    case _ => "outline"
  }

  /** Raw materials and transport share a badge; anything unlisted (such as "lainnya")
      looks like utilities. */
  lemma BadgeSharing(c: string)
    ensures CategoryBadge("bahan-baku") == CategoryBadge("transportasi")
    ensures c !in ["bahan-baku", "gaji", "utilitas", "peralatan", "transportasi"] ==>
      CategoryBadge(c) == CategoryBadge("utilitas")
    ensures |{CategoryBadge("bahan-baku"), CategoryBadge("gaji"), CategoryBadge("utilitas"), CategoryBadge("peralatan")}| == 4
  {
  }

  function CsvRows(filtered: seq<Expense>, fmt: Formats): (r: seq<seq<string>>)
    ensures |r| == 1 + |filtered|
    ensures r[0] == Reports.ExpenseHeader
    ensures forall i :: 0 <= i < |filtered| ==> r[1 + i] == Reports.ExpenseRow(filtered[i], fmt)
  {
    [Reports.ExpenseHeader] + Reports.ExpenseRows(filtered, fmt)
  }

  /** The downloaded file as the page builds it, rows joined by a backslash and `n`. */
  function CsvFile(filtered: seq<Expense>, fmt: Formats): string
  {
    RenderAsWritten(CsvRows(filtered, fmt))
  }

  /** As built, the download is a single line, however many expenses are shown. */
  lemma CsvFileIsOneLine(filtered: seq<Expense>, fmt: Formats)
    requires NoLineBreaks(CsvRows(filtered, fmt))
    ensures Split(CsvFile(filtered, fmt), '\n') == [CsvFile(filtered, fmt)]
  {
    AsWrittenIsOneLine(CsvRows(filtered, fmt));
  }

  /** The download with real line breaks between its rows. */
  function CsvFileCorrected(filtered: seq<Expense>, fmt: Formats): string
  {
    Render(CsvRows(filtered, fmt))
  }

  /** The corrected download has the header line and one line per shown expense. */
  lemma CsvFileLines(filtered: seq<Expense>, fmt: Formats)
    requires NoLineBreaks(CsvRows(filtered, fmt))
    ensures Split(CsvFileCorrected(filtered, fmt), '\n') == Lines(CsvRows(filtered, fmt))
    ensures |Split(CsvFileCorrected(filtered, fmt), '\n')| == 1 + |filtered|
  {
    RenderSplitsIntoRows(CsvRows(filtered, fmt));
  }
}
