/** The menu performance page: the period's sales grouped by menu item, with per-item
    counts, quantities, revenue, quantity per sales category and the mean unit price,
    ranked by revenue. */
module MenuPerformance {
  import opened Wrappers
  import opened Seqs
  import opened Sorting
  import opened Ledger

  function SalePrice(s: Sale): Money { s.price }

  // ----- the per-item category tally (`salesByCategory`) -----

  /** One entry of the `salesByCategory` object, in key insertion order. */
  datatype CategoryQty = CategoryQty(category: string, quantity: int)

  function EntryQuantity(e: CategoryQty): int { e.quantity }

  /** `tally[c] || 0`. */
  function Lookup(tally: seq<CategoryQty>, c: string): int
  {
    if tally == [] then 0
    else if tally[0].category == c then tally[0].quantity
    else Lookup(tally[1..], c)
  }

  predicate HasCategory(tally: seq<CategoryQty>, c: string)
  {
    tally != [] && (tally[0].category == c || HasCategory(tally[1..], c))
  }

  /** No category has two entries. */
  predicate DistinctCategories(tally: seq<CategoryQty>)
  {
    tally == [] || (!HasCategory(tally[1..], tally[0].category) && DistinctCategories(tally[1..]))
  }

  /** `tally[c] = (tally[c] || 0) + q`: a known category keeps its place, a new one goes last. */
  function Bump(tally: seq<CategoryQty>, c: string, q: int): (r: seq<CategoryQty>)
    ensures forall d :: HasCategory(r, d) <==> d == c || HasCategory(tally, d)
  {
    if tally == [] then [CategoryQty(c, q)]
    else if tally[0].category == c then [CategoryQty(c, tally[0].quantity + q)] + tally[1..]
    else [tally[0]] + Bump(tally[1..], c, q)
  }

  lemma {:induction false} BumpLookup(tally: seq<CategoryQty>, c: string, q: int, d: string)
    ensures Lookup(Bump(tally, c, q), d) == Lookup(tally, d) + (if d == c then q else 0)
  {
    if tally != [] && tally[0].category != c {
      BumpLookup(tally[1..], c, q, d);
      assert Bump(tally, c, q)[1..] == Bump(tally[1..], c, q);
    }
  }

  lemma {:induction false} BumpTotal(tally: seq<CategoryQty>, c: string, q: int)
    ensures Sum(Bump(tally, c, q), EntryQuantity) == Sum(tally, EntryQuantity) + q
  {
    if tally != [] {
      if tally[0].category == c {
        assert Bump(tally, c, q)[1..] == tally[1..];
      } else {
        BumpTotal(tally[1..], c, q);
        assert Bump(tally, c, q)[1..] == Bump(tally[1..], c, q);
      }
    }
  }

  lemma {:induction false} BumpDistinct(tally: seq<CategoryQty>, c: string, q: int)
    requires DistinctCategories(tally)
    ensures DistinctCategories(Bump(tally, c, q))
  {
    if tally != [] {
      if tally[0].category == c {
        assert Bump(tally, c, q)[1..] == tally[1..];
      } else {
        BumpDistinct(tally[1..], c, q);
        assert Bump(tally, c, q)[1..] == Bump(tally[1..], c, q);
      }
    }
  }

  // ----- the grouping reduce -----

  /** The accumulator entry of one menu item. */
  datatype MenuAcc = MenuAcc(
    menuItem: string,
    totalSales: int,
    totalQuantity: int,
    totalRevenue: Money,
    salesByCategory: seq<CategoryQty>,
    prices: seq<Money>)

  function GroupRevenue(g: MenuAcc): int { g.totalRevenue }
  function GroupQuantity(g: MenuAcc): int { g.totalQuantity }

  /** The entry created the first time an item is seen. */
  function NewGroup(menuItem: string): MenuAcc
  {
    MenuAcc(menuItem, 0, 0, 0, [], [])
  }

  /** The updates one sale makes to its item's entry. */
  function Record(g: MenuAcc, s: Sale): MenuAcc
  {
    g.(totalSales := g.totalSales + 1,
       totalQuantity := g.totalQuantity + s.quantity,
       totalRevenue := g.totalRevenue + s.total,
       prices := g.prices + [s.price],
       salesByCategory := Bump(g.salesByCategory, s.category, s.quantity))
  }

  /** The position of the entry for `m`, or -1 when the accumulator has none. */
  function IndexOf(acc: seq<MenuAcc>, m: string): (r: int)
    ensures -1 <= r < |acc|
    ensures r >= 0 ==> acc[r].menuItem == m
    ensures r == -1 <==> forall i :: 0 <= i < |acc| ==> acc[i].menuItem != m
  {
    if acc == [] then -1
    else if acc[0].menuItem == m then 0
    else
      var k := IndexOf(acc[1..], m);
      if k < 0 then -1 else k + 1
  }

  /** One step of the reduce. */
  function AddSale(acc: seq<MenuAcc>, s: Sale): seq<MenuAcc>
  {
    var i := IndexOf(acc, s.menuItem);
    if i < 0 then acc + [Record(NewGroup(s.menuItem), s)] else acc[i := Record(acc[i], s)]
  }

  /** The accumulator after the reduce has seen all of `sales`. */
  function Accumulate(sales: seq<Sale>): seq<MenuAcc>
    decreases |sales|
  {
    if sales == [] then []
    else AddSale(Accumulate(sales[..|sales| - 1]), sales[|sales| - 1])
  }

  // ----- reference definitions over the input -----

  /** The sales of item `m`, in input order (an exact, case-sensitive match). */
  function OfItem(sales: seq<Sale>, m: string): seq<Sale>
    decreases |sales|
  {
    if sales == [] then []
    else OfItem(sales[..|sales| - 1], m) + (if sales[|sales| - 1].menuItem == m then [sales[|sales| - 1]] else [])
  }

  /** The summed quantity of the sales of category `c`. */
  function QuantityIn(sales: seq<Sale>, c: string): int
    decreases |sales|
  {
    if sales == [] then 0
    else QuantityIn(sales[..|sales| - 1], c) + (if sales[|sales| - 1].category == c then sales[|sales| - 1].quantity else 0)
  }

  /** The position of the first sale of item `m`, or |sales| when there is none. */
  function FirstIndex(sales: seq<Sale>, m: string): (r: nat)
    ensures r <= |sales|
    ensures r < |sales| ==> sales[r].menuItem == m
    ensures forall k :: 0 <= k < r ==> sales[k].menuItem != m
  {
    if sales == [] then 0
    else if sales[0].menuItem == m then 0
    else 1 + FirstIndex(sales[1..], m)
  }

  lemma OfItemSnoc(sales: seq<Sale>, s: Sale, m: string)
    ensures OfItem(sales + [s], m) == OfItem(sales, m) + (if s.menuItem == m then [s] else [])
    ensures QuantityIn(sales + [s], m) == QuantityIn(sales, m) + (if s.category == m then s.quantity else 0)
  {
    assert (sales + [s])[..|sales|] == sales;
  }

  lemma {:induction false} FirstIndexSnoc(sales: seq<Sale>, s: Sale, m: string)
    ensures FirstIndex(sales + [s], m) ==
      if FirstIndex(sales, m) < |sales| then FirstIndex(sales, m)
      else if s.menuItem == m then |sales| else |sales| + 1
  {
    if sales != [] {
      assert (sales + [s])[1..] == sales[1..] + [s];
      FirstIndexSnoc(sales[1..], s, m);
    }
  }

  lemma {:induction false} OfItemAbsent(sales: seq<Sale>, m: string)
    requires forall k :: 0 <= k < |sales| ==> sales[k].menuItem != m
    ensures OfItem(sales, m) == []
  {
    if sales != [] {
      OfItemAbsent(sales[..|sales| - 1], m);
    }
  }

  /** An item with no first sale has no sales. */
  lemma FirstIndexAbsent(sales: seq<Sale>, m: string)
    ensures FirstIndex(sales, m) == |sales| ==> OfItem(sales, m) == []
  {
    if FirstIndex(sales, m) == |sales| {
      OfItemAbsent(sales, m);
    }
  }

  // ----- what the accumulator holds -----

  /** `g` holds exactly the figures of the sales of its item. */
  ghost predicate GroupMatches(g: MenuAcc, sales: seq<Sale>)
  {
    var mine := OfItem(sales, g.menuItem);
    && g.totalSales == |mine|
    && g.totalQuantity == Sum(mine, SaleQuantity)
    && g.totalRevenue == Sum(mine, SaleTotal)
    && g.prices == MapSeq(mine, SalePrice)
    && (forall c :: Lookup(g.salesByCategory, c) == QuantityIn(mine, c))
    && Sum(g.salesByCategory, EntryQuantity) == g.totalQuantity
    && DistinctCategories(g.salesByCategory)
  }

  ghost predicate HasItem(acc: seq<MenuAcc>, m: string)
  {
    exists i :: 0 <= i < |acc| && acc[i].menuItem == m
  }

  ghost predicate KeysDistinct(acc: seq<MenuAcc>)
  {
    forall i, j :: 0 <= i < j < |acc| ==> acc[i].menuItem != acc[j].menuItem
  }

  ghost predicate AllMatch(acc: seq<MenuAcc>, sales: seq<Sale>)
  {
    forall i :: 0 <= i < |acc| ==> GroupMatches(acc[i], sales) && acc[i].totalSales >= 1
  }

  ghost predicate Covers(acc: seq<MenuAcc>, sales: seq<Sale>)
  {
    forall k :: 0 <= k < |sales| ==> HasItem(acc, sales[k].menuItem)
  }

  ghost predicate FirstSeenOrder(acc: seq<MenuAcc>, sales: seq<Sale>)
  {
    forall i, j :: 0 <= i < j < |acc| ==>
      FirstIndex(sales, acc[i].menuItem) < FirstIndex(sales, acc[j].menuItem)
  }

  ghost predicate Conserves(acc: seq<MenuAcc>, sales: seq<Sale>)
  {
    Sum(acc, GroupRevenue) == Sum(sales, SaleTotal) && Sum(acc, GroupQuantity) == Sum(sales, SaleQuantity)
  }

  /** `acc` is the grouping of `sales`: one entry per distinct item, in order of first
      appearance, each matching its item's sales, and nothing lost in the totals. */
  ghost predicate Summarizes(acc: seq<MenuAcc>, sales: seq<Sale>)
  {
    KeysDistinct(acc) && AllMatch(acc, sales) && Covers(acc, sales)
    && FirstSeenOrder(acc, sales) && Conserves(acc, sales)
  }

  lemma RecordMatches(g: MenuAcc, sales: seq<Sale>, s: Sale)
    requires GroupMatches(g, sales) && s.menuItem == g.menuItem
    ensures GroupMatches(Record(g, s), sales + [s])
  {
    var mine := OfItem(sales, g.menuItem);
    OfItemSnoc(sales, s, g.menuItem);
    assert OfItem(sales + [s], g.menuItem) == mine + [s];
    SumAppend(mine, [s], SaleQuantity);
    SumAppend(mine, [s], SaleTotal);
    MapAppend(mine, [s], SalePrice);
    assert [s][1..] == [];
    BumpTotal(g.salesByCategory, s.category, s.quantity);
    BumpDistinct(g.salesByCategory, s.category, s.quantity);
    RecordTally(g, mine, s);
  }

  lemma RecordTally(g: MenuAcc, mine: seq<Sale>, s: Sale)
    requires forall c :: Lookup(g.salesByCategory, c) == QuantityIn(mine, c)
    ensures forall c :: Lookup(Record(g, s).salesByCategory, c) == QuantityIn(mine + [s], c)
  {
    forall c
      ensures Lookup(Record(g, s).salesByCategory, c) == QuantityIn(mine + [s], c)
    {
      BumpLookup(g.salesByCategory, s.category, s.quantity, c);
      OfItemSnoc(mine, s, c);
    }
  }

  lemma OtherMatches(g: MenuAcc, sales: seq<Sale>, s: Sale)
    requires GroupMatches(g, sales) && s.menuItem != g.menuItem
    ensures GroupMatches(g, sales + [s])
  {
    OfItemSnoc(sales, s, g.menuItem);
    assert OfItem(sales + [s], g.menuItem) == OfItem(sales, g.menuItem);
  }

  lemma NewGroupMatches(sales: seq<Sale>, m: string)
    requires forall k :: 0 <= k < |sales| ==> sales[k].menuItem != m
    ensures GroupMatches(NewGroup(m), sales)
  {
    OfItemAbsent(sales, m);
  }

  /** The entries already present keep their first-appearance positions. */
  lemma FirstIndexKept(acc: seq<MenuAcc>, sales: seq<Sale>, s: Sale)
    requires AllMatch(acc, sales)
    ensures forall j :: 0 <= j < |acc| ==>
      FirstIndex(sales + [s], acc[j].menuItem) == FirstIndex(sales, acc[j].menuItem) < |sales|
  {
    forall j | 0 <= j < |acc|
      ensures FirstIndex(sales + [s], acc[j].menuItem) == FirstIndex(sales, acc[j].menuItem) < |sales|
    {
      assert GroupMatches(acc[j], sales);
      assert OfItem(sales, acc[j].menuItem) != [];
      FirstIndexAbsent(sales, acc[j].menuItem);
      FirstIndexSnoc(sales, s, acc[j].menuItem);
    }
  }

  lemma OthersMatch(acc: seq<MenuAcc>, sales: seq<Sale>, s: Sale)
    requires AllMatch(acc, sales)
    ensures forall j :: 0 <= j < |acc| && acc[j].menuItem != s.menuItem ==>
      GroupMatches(acc[j], sales + [s])
  {
    forall j | 0 <= j < |acc| && acc[j].menuItem != s.menuItem
      ensures GroupMatches(acc[j], sales + [s])
    {
      OtherMatches(acc[j], sales, s);
    }
  }

  lemma ExistingMatch(acc: seq<MenuAcc>, sales: seq<Sale>, s: Sale, i: int)
    requires KeysDistinct(acc) && AllMatch(acc, sales)
    requires 0 <= i < |acc| && acc[i].menuItem == s.menuItem
    ensures AllMatch(acc[i := Record(acc[i], s)], sales + [s])
  {
    RecordMatches(acc[i], sales, s);
    OthersMatch(acc, sales, s);
  }

  lemma ExistingCovers(acc: seq<MenuAcc>, sales: seq<Sale>, s: Sale, i: int)
    requires Covers(acc, sales)
    requires 0 <= i < |acc| && acc[i].menuItem == s.menuItem
    ensures Covers(acc[i := Record(acc[i], s)], sales + [s])
  {
    var acc' := acc[i := Record(acc[i], s)];
    forall k | 0 <= k < |sales| + 1
      ensures HasItem(acc', (sales + [s])[k].menuItem)
    {
      if k < |sales| {
        assert (sales + [s])[k] == sales[k];
        assert HasItem(acc, sales[k].menuItem);
        var j :| 0 <= j < |acc| && acc[j].menuItem == sales[k].menuItem;
        assert acc'[j].menuItem == acc[j].menuItem;
      } else {
        assert acc'[i].menuItem == s.menuItem;
      }
    }
  }

  lemma ExistingConserves(acc: seq<MenuAcc>, sales: seq<Sale>, s: Sale, i: int)
    requires Conserves(acc, sales)
    requires 0 <= i < |acc|
    ensures Conserves(acc[i := Record(acc[i], s)], sales + [s])
  {
    var g := Record(acc[i], s);
    SumUpdate(acc, i, g, GroupRevenue);
    SumUpdate(acc, i, g, GroupQuantity);
    SumAppend(sales, [s], SaleTotal);
    SumAppend(sales, [s], SaleQuantity);
    assert [s][1..] == [];
  }

  lemma ExistingKeys(acc: seq<MenuAcc>, sales: seq<Sale>, s: Sale, i: int)
    requires KeysDistinct(acc) && FirstSeenOrder(acc, sales) && AllMatch(acc, sales)
    requires 0 <= i < |acc| && acc[i].menuItem == s.menuItem
    ensures KeysDistinct(acc[i := Record(acc[i], s)])
    ensures FirstSeenOrder(acc[i := Record(acc[i], s)], sales + [s])
  {
    var acc' := acc[i := Record(acc[i], s)];
    FirstIndexKept(acc, sales, s);
    assert forall j :: 0 <= j < |acc| ==> acc'[j].menuItem == acc[j].menuItem;
  }

  lemma AddToExisting(acc: seq<MenuAcc>, sales: seq<Sale>, s: Sale, i: int)
    requires Summarizes(acc, sales)
    requires i == IndexOf(acc, s.menuItem) && i >= 0
    ensures Summarizes(acc[i := Record(acc[i], s)], sales + [s])
  {
    ExistingKeys(acc, sales, s, i);
    ExistingMatch(acc, sales, s, i);
    ExistingCovers(acc, sales, s, i);
    ExistingConserves(acc, sales, s, i);
  }

  lemma NewMatch(acc: seq<MenuAcc>, sales: seq<Sale>, s: Sale)
    requires AllMatch(acc, sales) && Covers(acc, sales)
    requires forall j :: 0 <= j < |acc| ==> acc[j].menuItem != s.menuItem
    ensures AllMatch(acc + [Record(NewGroup(s.menuItem), s)], sales + [s])
  {
    forall k | 0 <= k < |sales|
      ensures sales[k].menuItem != s.menuItem
    {
      assert HasItem(acc, sales[k].menuItem);
    }
    NewGroupMatches(sales, s.menuItem);
    RecordMatches(NewGroup(s.menuItem), sales, s);
    OthersMatch(acc, sales, s);
  }

  lemma NewCovers(acc: seq<MenuAcc>, sales: seq<Sale>, s: Sale)
    requires Covers(acc, sales)
    ensures Covers(acc + [Record(NewGroup(s.menuItem), s)], sales + [s])
  {
    var acc' := acc + [Record(NewGroup(s.menuItem), s)];
    forall k | 0 <= k < |sales| + 1
      ensures HasItem(acc', (sales + [s])[k].menuItem)
    {
      if k < |sales| {
        assert (sales + [s])[k] == sales[k];
        assert HasItem(acc, sales[k].menuItem);
        var j :| 0 <= j < |acc| && acc[j].menuItem == sales[k].menuItem;
        assert acc'[j] == acc[j];
      } else {
        assert acc'[|acc|].menuItem == s.menuItem;
      }
    }
  }

  lemma NewOrder(acc: seq<MenuAcc>, sales: seq<Sale>, s: Sale)
    requires AllMatch(acc, sales) && Covers(acc, sales) && FirstSeenOrder(acc, sales)
    requires forall j :: 0 <= j < |acc| ==> acc[j].menuItem != s.menuItem
    ensures FirstSeenOrder(acc + [Record(NewGroup(s.menuItem), s)], sales + [s])
  {
    forall k | 0 <= k < |sales|
      ensures sales[k].menuItem != s.menuItem
    {
      assert HasItem(acc, sales[k].menuItem);
    }
    FirstIndexSnoc(sales, s, s.menuItem);
    FirstIndexKept(acc, sales, s);
  }

  lemma NewConserves(acc: seq<MenuAcc>, sales: seq<Sale>, s: Sale)
    requires Conserves(acc, sales)
    ensures Conserves(acc + [Record(NewGroup(s.menuItem), s)], sales + [s])
  {
    var g := Record(NewGroup(s.menuItem), s);
    SumAppend(acc, [g], GroupRevenue);
    SumAppend(acc, [g], GroupQuantity);
    SumAppend(sales, [s], SaleTotal);
    SumAppend(sales, [s], SaleQuantity);
    assert [g][1..] == [] && [s][1..] == [];
  }

  lemma AddNew(acc: seq<MenuAcc>, sales: seq<Sale>, s: Sale)
    requires Summarizes(acc, sales)
    requires IndexOf(acc, s.menuItem) < 0
    ensures Summarizes(acc + [Record(NewGroup(s.menuItem), s)], sales + [s])
  {
    NewMatch(acc, sales, s);
    NewCovers(acc, sales, s);
    NewOrder(acc, sales, s);
    NewConserves(acc, sales, s);
  }

  lemma AddSalePreserves(acc: seq<MenuAcc>, sales: seq<Sale>, s: Sale)
    requires Summarizes(acc, sales)
    ensures Summarizes(AddSale(acc, s), sales + [s])
  {
    var i := IndexOf(acc, s.menuItem);
    if i >= 0 {
      AddToExisting(acc, sales, s, i);
    } else {
      AddNew(acc, sales, s);
    }
  }

  lemma {:induction false} AccumulateSummarizes(sales: seq<Sale>)
    ensures Summarizes(Accumulate(sales), sales)
  {
    if sales != [] {
      var init := sales[..|sales| - 1];
      AccumulateSummarizes(init);
      AddSalePreserves(Accumulate(init), init, sales[|sales| - 1]);
      assert init + [sales[|sales| - 1]] == sales;
    }
  }

  /** The reduce as the page runs it: look the item up, create its entry when missing,
      then update the entry in place. */
  method GroupByMenuItem(sales: seq<Sale>) returns (acc: seq<MenuAcc>)
    ensures acc == Accumulate(sales)
    ensures Summarizes(acc, sales)
  {
    acc := [];
    var i := 0;
    while i < |sales|
      invariant 0 <= i <= |sales|
      invariant acc == Accumulate(sales[..i])
    {
      var s := sales[i];
      var k := IndexOf(acc, s.menuItem);
      ghost var before := acc;
      if k < 0 {
        acc := acc + [NewGroup(s.menuItem)];
        k := |acc| - 1;
      }
      acc := acc[k := Record(acc[k], s)];
      assert acc == AddSale(before, s);
      assert sales[..i + 1][..i] == sales[..i];
      i := i + 1;
    }
    assert sales[..|sales|] == sales;
    AccumulateSummarizes(sales);
  }

  /** Each item is grouped exactly when some sale names it, and no item twice. */
  lemma {:induction false} OneGroupPerItem(sales: seq<Sale>, m: string)
    ensures HasItem(Accumulate(sales), m) <==> exists k :: 0 <= k < |sales| && sales[k].menuItem == m
    ensures KeysDistinct(Accumulate(sales))
  {
    var acc := Accumulate(sales);
    AccumulateSummarizes(sales);
    if HasItem(acc, m) {
      var i :| 0 <= i < |acc| && acc[i].menuItem == m;
      assert GroupMatches(acc[i], sales);
      FirstIndexAbsent(sales, m);
      assert sales[FirstIndex(sales, m)].menuItem == m;
    }
  }

  /** Names that differ only in letter case are separate items. */
  lemma CaseSensitiveGrouping(a: Sale, b: Sale)
    requires a.menuItem == "Rendang" && b.menuItem == "rendang"
    ensures |Accumulate([a, b])| == 2
  {
    assert [a, b][..1] == [a];
    assert [a][..0] == [];
    assert Accumulate([a]) == [Record(NewGroup(a.menuItem), a)];
    assert Accumulate([a, b]) == AddSale(Accumulate([a]), b);
  }

  // ----- the average, sort and rank stage -----

  /** A group with its `averagePrice` added. */
  datatype MenuStat = MenuStat(group: MenuAcc, averagePrice: real)

  /** A row of the page, with its `performanceRank`. */
  datatype MenuPerformance = MenuPerformance(stat: MenuStat, performanceRank: int)

  function Cents(x: Money): int { x }

  /** The arithmetic mean of the unit prices, or 0 for none. */
  function Mean(prices: seq<Money>): (r: real)
    ensures |prices| == 0 ==> r == 0.0
    ensures |prices| > 0 ==> r * (|prices| as real) == Sum(prices, Cents) as real
  {
    if |prices| > 0 then (Sum(prices, Cents) as real) / (|prices| as real) else 0.0
  }

  function WithAverage(g: MenuAcc): MenuStat
  {
    MenuStat(g, Mean(g.prices))
  }

  function StatRevenue(m: MenuStat): int { m.group.totalRevenue }
  function StatQuantity(m: MenuStat): int { m.group.totalQuantity }
  function RowStat(r: MenuPerformance): MenuStat { r.stat }
  function RowRevenue(r: MenuPerformance): int { r.stat.group.totalRevenue }
  function RowQuantity(r: MenuPerformance): int { r.stat.group.totalQuantity }

  /** `xs.map((x, index) => ({...x, performanceRank: index + from}))`. */
  function Rank(xs: seq<MenuStat>, from: int): (r: seq<MenuPerformance>)
    ensures |r| == |xs|
    ensures forall i :: 0 <= i < |xs| ==> r[i] == MenuPerformance(xs[i], from + i)
  {
    if xs == [] then [] else [MenuPerformance(xs[0], from)] + Rank(xs[1..], from + 1)
  }

  lemma RankStats(xs: seq<MenuStat>, from: int)
    ensures MapSeq(Rank(xs, from), RowStat) == xs
  {
  }

  /** The groups with their averages, sorted by revenue descending and ranked from 1. */
  function RankMenuPerformance(acc: seq<MenuAcc>): (r: seq<MenuPerformance>)
    ensures |r| == |acc|
    ensures forall i :: 0 <= i < |r| ==> r[i].performanceRank == i + 1
    ensures forall i, j :: 0 <= i < j < |r| ==> RowRevenue(r[i]) >= RowRevenue(r[j])
    ensures multiset(MapSeq(r, RowStat)) == multiset(MapSeq(acc, WithAverage))
  {
    var sorted := SortDesc(MapSeq(acc, WithAverage), StatRevenue);
    RankStats(sorted, 1);
    Rank(sorted, 1)
  }

  /** Every row's average price is the mean of its group's unit prices. */
  lemma RowsCarryMeans(acc: seq<MenuAcc>)
    ensures var r := RankMenuPerformance(acc);
      forall i :: 0 <= i < |r| ==> r[i].stat.averagePrice == Mean(r[i].stat.group.prices)
  {
    var sorted := SortDesc(MapSeq(acc, WithAverage), StatRevenue);
    var r := RankMenuPerformance(acc);
    assert r == Rank(sorted, 1);
    forall i | 0 <= i < |r|
      ensures r[i].stat.averagePrice == Mean(r[i].stat.group.prices)
    {
      SortedStatHasMean(acc, i);
      assert r[i].stat == sorted[i];
    }
  }

  lemma SortedStatHasMean(acc: seq<MenuAcc>, i: int)
    requires 0 <= i < |acc|
    ensures SortDesc(MapSeq(acc, WithAverage), StatRevenue)[i]
         == WithAverage(SortDesc(MapSeq(acc, WithAverage), StatRevenue)[i].group)
  {
    var stats := MapSeq(acc, WithAverage);
    var sorted := SortDesc(stats, StatRevenue);
    assert sorted[i] in multiset(sorted);
    assert sorted[i] in multiset(stats);
    var k :| 0 <= k < |stats| && stats[k] == sorted[i];
  }

  /** `menuPerformanceArray`: the whole page pipeline. */
  function MenuPerformanceArray(sales: seq<Sale>): seq<MenuPerformance>
  {
    RankMenuPerformance(Accumulate(sales))
  }

  /** Ties in revenue keep the order in which the items first appear among the sales. */
  lemma TiesKeepFirstSeenOrder(sales: seq<Sale>)
    ensures var r := MenuPerformanceArray(sales);
      forall i, j :: 0 <= i < j < |r| && RowRevenue(r[i]) == RowRevenue(r[j]) ==>
        FirstIndex(sales, r[i].stat.group.menuItem) < FirstIndex(sales, r[j].stat.group.menuItem)
  {
    var r := MenuPerformanceArray(sales);
    forall i, j | 0 <= i < j < |r| && RowRevenue(r[i]) == RowRevenue(r[j])
      ensures FirstIndex(sales, r[i].stat.group.menuItem) < FirstIndex(sales, r[j].stat.group.menuItem)
    {
      TieOrder(sales, i, j);
    }
  }

  lemma TieOrder(sales: seq<Sale>, i: int, j: int)
    requires 0 <= i < j < |MenuPerformanceArray(sales)|
    requires RowRevenue(MenuPerformanceArray(sales)[i]) == RowRevenue(MenuPerformanceArray(sales)[j])
    ensures FirstIndex(sales, MenuPerformanceArray(sales)[i].stat.group.menuItem)
          < FirstIndex(sales, MenuPerformanceArray(sales)[j].stat.group.menuItem)
  {
    var stats := MapSeq(Accumulate(sales), WithAverage);
    var first := (m: MenuStat) => FirstIndex(sales, m.group.menuItem);
    StatsInFirstSeenOrder(sales, first);
    RankStats(SortDesc(stats, StatRevenue), 1);
    SortDescKeepsTieOrder(stats, StatRevenue, first, i, j);
  }

  lemma StatsInFirstSeenOrder(sales: seq<Sale>, first: MenuStat -> int)
    requires forall m :: first(m) == FirstIndex(sales, m.group.menuItem)
    ensures IncreasingBy(MapSeq(Accumulate(sales), WithAverage), first)
  {
    AccumulateSummarizes(sales);
    assert FirstSeenOrder(Accumulate(sales), sales);
  }

  /** The page's revenue and quantity totals equal those of all the input sales. */
  lemma Conservation(sales: seq<Sale>)
    ensures Sum(MenuPerformanceArray(sales), RowRevenue) == Sum(sales, SaleTotal)
    ensures Sum(MenuPerformanceArray(sales), RowQuantity) == Sum(sales, SaleQuantity)
  {
    var acc := Accumulate(sales);
    AccumulateSummarizes(sales);
    var stats := MapSeq(acc, WithAverage);
    var sorted := SortDesc(stats, StatRevenue);
    var r := Rank(sorted, 1);
    RankStats(sorted, 1);
    SumMapSeq(r, RowStat, StatRevenue, RowRevenue);
    SumMapSeq(r, RowStat, StatQuantity, RowQuantity);
    SumSortDesc(stats, StatRevenue, StatRevenue);
    SumSortDesc(stats, StatRevenue, StatQuantity);
    SumMapSeq(acc, WithAverage, StatRevenue, GroupRevenue);
    SumMapSeq(acc, WithAverage, StatQuantity, GroupQuantity);
  }

  /** The mean is of the unit prices, not revenue over quantity: one plate at 10 and
      three at 20 average 15, while revenue over quantity is 17.5. */
  lemma AverageIsMeanOfUnitPrices(a: Sale, b: Sale)
    requires a.menuItem == b.menuItem
    requires a.price == 10 && a.quantity == 1 && a.total == 10
    requires b.price == 20 && b.quantity == 3 && b.total == 60
    ensures var r := MenuPerformanceArray([a, b]);
      && |r| == 1
      && r[0].stat.averagePrice == 15.0
      && r[0].stat.group.totalRevenue == 70 && r[0].stat.group.totalQuantity == 4
      && r[0].stat.averagePrice * 4.0 != 70.0
  {
    assert [a, b][..1] == [a];
    assert [a][..0] == [];
    assert Accumulate([a]) == [Record(NewGroup(a.menuItem), a)];
    assert Accumulate([a, b]) == AddSale(Accumulate([a]), b);
    var g := Accumulate([a, b])[0];
    assert g.prices == [10, 20];
    assert [10, 20][1..] == [20] && [20][1..] == [];
    assert Sum([10, 20], Cents) == 30;
  }

  /** `getPerformanceBadge`. */
  function PerformanceBadge(rank: int): string
  {
    if rank <= 3 then "default" else if rank <= 6 then "secondary" else "outline"
  }

  /** On the page the first three rows get the main badge, the next three the secondary
      one and the rest the outline. */
  lemma BadgesByPosition(sales: seq<Sale>)
    ensures var r := MenuPerformanceArray(sales);
      forall i :: 0 <= i < |r| ==>
        && (PerformanceBadge(r[i].performanceRank) == "default" <==> i < 3)
        && (PerformanceBadge(r[i].performanceRank) == "secondary" <==> 3 <= i < 6)
        && (PerformanceBadge(r[i].performanceRank) == "outline" <==> 6 <= i)
  {
  }

  function TotalRevenue(rows: seq<MenuPerformance>): int { Sum(rows, RowRevenue) }
  function TotalQuantitySold(rows: seq<MenuPerformance>): int { Sum(rows, RowQuantity) }

  /** `menuPerformanceArray[0]`. */
  function BestSellingMenu(rows: seq<MenuPerformance>): (r: Option<MenuPerformance>)
    ensures r.Some? <==> rows != []
    ensures r.Some? ==> r.value == rows[0]
  {
    if rows == [] then None else Some(rows[0])
  }

  /** `bestSellingMenu?.menuItem || "N/A"`. */
  function BestSellerLabel(best: Option<MenuPerformance>): string
  {
    if best.Some? && best.value.stat.group.menuItem != "" then best.value.stat.group.menuItem else "N/A"
  }

  /** With sales there is a best seller, ranked 1, whose revenue no other item beats;
      without sales the card reads "N/A". */
  lemma BestSeller(sales: seq<Sale>)
    ensures sales == [] ==> BestSellerLabel(BestSellingMenu(MenuPerformanceArray(sales))) == "N/A"
    ensures sales != [] ==>
      var r := MenuPerformanceArray(sales);
      var best := BestSellingMenu(r);
      && best.Some? && best.value.performanceRank == 1
      && (forall i :: 0 <= i < |r| ==> RowRevenue(r[i]) <= RowRevenue(best.value))
  {
    if sales != [] {
      AccumulateNonEmpty(sales);
      TopRow(MenuPerformanceArray(sales));
    } else {
      assert Accumulate(sales) == [];
    }
  }

  lemma TopRow(r: seq<MenuPerformance>)
    requires |r| > 0 && r[0].performanceRank == 1
    requires forall i, j :: 0 <= i < j < |r| ==> RowRevenue(r[i]) >= RowRevenue(r[j])
    ensures var best := BestSellingMenu(r);
      && best.Some? && best.value.performanceRank == 1
      && (forall i :: 0 <= i < |r| ==> RowRevenue(r[i]) <= RowRevenue(best.value))
  {
    assert forall i :: 0 < i < |r| ==> RowRevenue(r[0]) >= RowRevenue(r[i]);
  }

  lemma AccumulateNonEmpty(sales: seq<Sale>)
    requires sales != []
    ensures |Accumulate(sales)| > 0
  {
  }

  /** Two Rendang sales worth 50 and 40 outrank one Ayam Pop sale worth 80. */
  lemma RankingExample(a: Sale, b: Sale, c: Sale)
    requires a.menuItem == "Rendang" && a.total == 50
    requires b.menuItem == "Ayam Pop" && b.total == 80
    requires c.menuItem == "Rendang" && c.total == 40
    ensures var r := MenuPerformanceArray([a, b, c]);
      && |r| == 2
      && r[0].stat.group.menuItem == "Rendang" && r[0].stat.group.totalRevenue == 90
      && r[0].performanceRank == 1 && r[0].stat.group.totalSales == 2
      && r[1].stat.group.menuItem == "Ayam Pop" && r[1].performanceRank == 2
  {
    ExampleGroups(a, b, c);
    TwoGroupsRanked(Accumulate([a, b, c]));
  }

  lemma ExampleGroups(a: Sale, b: Sale, c: Sale)
    requires a.menuItem == "Rendang" && b.menuItem == "Ayam Pop" && c.menuItem == "Rendang"
    ensures Accumulate([a, b, c]) == [Record(Record(NewGroup("Rendang"), a), c), Record(NewGroup("Ayam Pop"), b)]
  {
    FirstTwoGroups(a, b);
    assert [a, b, c][..2] == [a, b];
  }

  lemma FirstTwoGroups(a: Sale, b: Sale)
    requires a.menuItem != b.menuItem
    ensures Accumulate([a, b]) == [Record(NewGroup(a.menuItem), a), Record(NewGroup(b.menuItem), b)]
  {
    assert [a, b][..1] == [a];
    assert [a][..0] == [];
    assert Accumulate([a]) == [Record(NewGroup(a.menuItem), a)];
  }

  /** Two groups whose revenues differ are ranked by revenue. */
  lemma TwoGroupsRanked(acc: seq<MenuAcc>)
    requires |acc| == 2 && acc[0].totalRevenue > acc[1].totalRevenue
    ensures RankMenuPerformance(acc) == [MenuPerformance(WithAverage(acc[0]), 1), MenuPerformance(WithAverage(acc[1]), 2)]
  {
    var w := MapSeq(acc, WithAverage);
    assert w == [WithAverage(acc[0]), WithAverage(acc[1])];
    assert w[1..] == [w[1]] && w[1..][1..] == [];
    assert SortDesc([w[1]], StatRevenue) == [w[1]];
    assert Insert(w[0], [w[1]], StatRevenue) == w;
    assert SortDesc(w, StatRevenue) == w;
    assert Rank(w, 1) == [MenuPerformance(w[0], 1), MenuPerformance(w[1], 2)];
  }
}
