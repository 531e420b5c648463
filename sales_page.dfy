/** The sales list page: the category and search filter, the totals over what is shown,
    the category badges and labels, and the CSV download. */
module SalesPage {
  import opened Wrappers
  import opened Seqs
  import opened Text
  import opened Ledger
  import opened Csv

  import Reports

  predicate MatchesCategory(s: Sale, selected: string)
  {
    selected == "all" || s.category == selected
  }

  /** `lower` is `String#toLowerCase`. Missing notes never match a non-empty term. */
  predicate MatchesSearch(s: Sale, term: string, lower: string -> string)
  {
    term == ""
    || Contains(lower(s.menuItem), lower(term))
    || (s.notes.Some? && Contains(lower(s.notes.value), lower(term)))
  }

  /** `filteredSales`. */
  function FilterSales(sales: seq<Sale>, selected: string, term: string, lower: string -> string): (r: seq<Sale>)
    ensures forall s :: s in r <==> s in sales && MatchesCategory(s, selected) && MatchesSearch(s, term, lower)
    ensures Subseq(r, sales)
  {
    if sales == [] then []
    else
      var rest := FilterSales(sales[1..], selected, term, lower);
      if MatchesCategory(sales[0], selected) && MatchesSearch(sales[0], term, lower) then
        assert ([sales[0]] + rest)[1..] == rest;
        [sales[0]] + rest
      else rest
  }

  /** With "all" categories and an empty search everything is shown. */
  lemma {:induction false} NoFilterKeepsAll(sales: seq<Sale>, lower: string -> string)
    ensures FilterSales(sales, "all", "", lower) == sales
  {
    if sales != [] {
      NoFilterKeepsAll(sales[1..], lower);
    }
  }

  /** A sale the filter rejects changes none of the figures shown. */
  lemma {:induction false} RejectedSaleIgnored(sales: seq<Sale>, x: Sale, selected: string, term: string,
                                               lower: string -> string)
    requires !(MatchesCategory(x, selected) && MatchesSearch(x, term, lower))
    ensures FilterSales(sales + [x], selected, term, lower) == FilterSales(sales, selected, term, lower)
  {
    if sales != [] {
      assert (sales + [x])[1..] == sales[1..] + [x];
      RejectedSaleIgnored(sales[1..], x, selected, term, lower);
    }
  }

  /** Filtering twice by the same selection changes nothing more. */
  lemma {:induction false} FilterIdempotent(sales: seq<Sale>, selected: string, term: string, lower: string -> string)
    ensures var once := FilterSales(sales, selected, term, lower);
      FilterSales(once, selected, term, lower) == once
  {
    if sales != [] {
      FilterIdempotent(sales[1..], selected, term, lower);
      var rest := FilterSales(sales[1..], selected, term, lower);
      if MatchesCategory(sales[0], selected) && MatchesSearch(sales[0], term, lower) {
        assert ([sales[0]] + rest)[1..] == rest;
      }
    }
  }

  /** The three stat cards, over the filtered list. */
  datatype SalesStats = SalesStats(totalSales: Money, totalQuantity: int, count: nat)

  function Stats(filtered: seq<Sale>): SalesStats
  {
    SalesStats(Sum(filtered, SaleTotal), Sum(filtered, SaleQuantity), |filtered|)
  }

  /** The cards follow the filter: adding a sale it rejects leaves them unchanged, adding
      one it keeps adds that sale's figures. */
  lemma StatsFollowFilter(sales: seq<Sale>, x: Sale, selected: string, term: string, lower: string -> string)
    ensures var before := Stats(FilterSales(sales, selected, term, lower));
      var after := Stats(FilterSales(sales + [x], selected, term, lower));
      if MatchesCategory(x, selected) && MatchesSearch(x, term, lower) then
        after == SalesStats(before.totalSales + x.total, before.totalQuantity + x.quantity, before.count + 1)
      else after == before
  {
    if MatchesCategory(x, selected) && MatchesSearch(x, term, lower) {
      FilterSnoc(sales, x, selected, term, lower);
      var f := FilterSales(sales, selected, term, lower);
      SumAppend(f, [x], SaleTotal);
      SumAppend(f, [x], SaleQuantity);
      assert [x][1..] == [];
    } else {
      RejectedSaleIgnored(sales, x, selected, term, lower);
    }
  }

  lemma {:induction false} FilterSnoc(sales: seq<Sale>, x: Sale, selected: string, term: string,
                                      lower: string -> string)
    requires MatchesCategory(x, selected) && MatchesSearch(x, term, lower)
    ensures FilterSales(sales + [x], selected, term, lower) == FilterSales(sales, selected, term, lower) + [x]
  {
    if sales == [] {
      assert [x][1..] == [];
    } else {
      var ys := sales + [x];
      assert ys[0] == sales[0] && ys[1..] == sales[1..] + [x];
      FilterSnoc(sales[1..], x, selected, term, lower);
      var tail := FilterSales(sales[1..], selected, term, lower);
      if MatchesCategory(sales[0], selected) && MatchesSearch(sales[0], term, lower) {
        assert ([sales[0]] + tail) + [x] == [sales[0]] + (tail + [x]);
      }
    }
  }

  /** `getCategoryBadgeVariant` of the sales page. */
  function CategoryBadge(category: string): string
  {
    match category
    case "dine-in" => "default"
    case "takeaway" => "secondary"
    case "online" => "outline"
    case "catering" => "destructive"
    case _ => "default"
  }

  /** The four sales channels get four different badges; any other category looks like
      dine-in. */
  lemma BadgesDistinguishChannels(c: string)
    ensures c !in ["dine-in", "takeaway", "online", "catering"] ==> CategoryBadge(c) == CategoryBadge("dine-in")
    ensures |{CategoryBadge("dine-in"), CategoryBadge("takeaway"), CategoryBadge("online"), CategoryBadge("catering")}| == 4
  {
  }

  /** The rows of the download: the column header, then one row per shown sale. */
  function CsvRows(filtered: seq<Sale>, fmt: Formats): (r: seq<seq<string>>)
    ensures |r| == 1 + |filtered|
    ensures r[0] == Reports.SalesHeader
    ensures forall i :: 0 <= i < |filtered| ==> r[1 + i] == Reports.SaleRow(filtered[i], fmt)
  {
    [Reports.SalesHeader] + Reports.SaleRows(filtered, fmt)
  }

  /** The downloaded file as the page builds it, rows joined by a backslash and `n`. */
  function CsvFile(filtered: seq<Sale>, fmt: Formats): string
  {
    RenderAsWritten(CsvRows(filtered, fmt))
  }

  /** As built, the download is a single line, however many sales are shown. */
  lemma CsvFileIsOneLine(filtered: seq<Sale>, fmt: Formats)
    requires NoLineBreaks(CsvRows(filtered, fmt))
    ensures Split(CsvFile(filtered, fmt), '\n') == [CsvFile(filtered, fmt)]
  {
    AsWrittenIsOneLine(CsvRows(filtered, fmt));
  }

  /** The download with real line breaks between its rows. */
  function CsvFileCorrected(filtered: seq<Sale>, fmt: Formats): string
  {
    Render(CsvRows(filtered, fmt))
  }

  /** The corrected download has the header line and one line per shown sale. */
  lemma CsvFileLines(filtered: seq<Sale>, fmt: Formats)
    requires NoLineBreaks(CsvRows(filtered, fmt))
    ensures Split(CsvFileCorrected(filtered, fmt), '\n') == Lines(CsvRows(filtered, fmt))
    ensures |Split(CsvFileCorrected(filtered, fmt), '\n')| == 1 + |filtered|
  {
    RenderSplitsIntoRows(CsvRows(filtered, fmt));
  }
}
