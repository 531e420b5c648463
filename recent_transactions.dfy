/** The dashboard's "Transaksi Terbaru" card: the first five sales and the first five
    expenses, merged and sorted by id, newest id first. */
module RecentTransactions {
  import opened Seqs
  import opened Text
  import opened Ledger

  datatype Kind = SaleTx | ExpenseTx

  /** One row of the card. `time` is the record's datetime; its clock formatting is a
      display concern. */
  datatype Transaction = Transaction(id: Id, kind: Kind, description: string, amount: Money,
                                     time: Time, category: string)

  function SaleItem(s: Sale): Transaction
  {
    Transaction(s.id, SaleTx, "Penjualan " + s.menuItem, s.total, s.datetime, "Penjualan")
  }

  function ExpenseItem(e: Expense): Transaction
  {
    Transaction(e.id, ExpenseTx, e.description, e.amount, e.datetime, e.category)
  }

  /** `b.id.localeCompare(a.id)` ordering, with string comparison as lexicographic order:
      no later id is larger than an earlier one. */
  ghost predicate SortedByIdDesc(xs: seq<Transaction>)
  {
    forall i, j :: 0 <= i < j < |xs| ==> !Less(xs[i].id, xs[j].id)
  }

  lemma LessAsymmetric(a: string, b: string)
    requires Less(a, b)
    ensures !Less(b, a)
  {
    if Less(b, a) {
      LessTransitive(a, b, a);
      LessIrreflexive(a);
    }
  }

  /** Places `x` in front of the first element whose id is not larger than its own. */
  function InsertById(x: Transaction, ys: seq<Transaction>): (r: seq<Transaction>)
    ensures multiset(r) == multiset(ys) + multiset{x}
  {
    if ys == [] || !Less(x.id, ys[0].id) then [x] + ys
    else
      assert ys == [ys[0]] + ys[1..];
      [ys[0]] + InsertById(x, ys[1..])
  }

  /** Putting an element whose id is no smaller than the rest in front keeps the order. */
  lemma ConsSortedById(y: Transaction, rest: seq<Transaction>)
    requires SortedByIdDesc(rest)
    requires forall z :: z in rest ==> !Less(y.id, z.id)
    ensures SortedByIdDesc([y] + rest)
  {
    var r := [y] + rest;
    forall i, j | 0 <= i < j < |r| ensures !Less(r[i].id, r[j].id) {
      assert r[j] == rest[j - 1];
      if i == 0 {
        assert rest[j - 1] in rest;
      } else {
        assert r[i] == rest[i - 1];
      }
    }
  }

  lemma {:induction false} InsertByIdSorted(x: Transaction, ys: seq<Transaction>)
    requires SortedByIdDesc(ys)
    ensures SortedByIdDesc(InsertById(x, ys))
  {
    if ys == [] || !Less(x.id, ys[0].id) {
      forall z | z in ys ensures !Less(x.id, z.id) {
        var k :| 0 <= k < |ys| && ys[k] == z;
        if k > 0 {
          NotLessTransitive(x.id, ys[0].id, ys[k].id);
        }
      }
      ConsSortedById(x, ys);
    } else {
      InsertByIdSorted(x, ys[1..]);
      InsertByIdBound(x, ys);
      ConsSortedById(ys[0], InsertById(x, ys[1..]));
    }
  }

  lemma InsertByIdBound(x: Transaction, ys: seq<Transaction>)
    requires SortedByIdDesc(ys)
    requires ys != [] && Less(x.id, ys[0].id)
    ensures forall z :: z in InsertById(x, ys[1..]) ==> !Less(ys[0].id, z.id)
  {
    var rest := InsertById(x, ys[1..]);
    LessAsymmetric(x.id, ys[0].id);
    forall z | z in rest ensures !Less(ys[0].id, z.id) {
      assert z in multiset(rest);
      if z != x {
        assert z in ys[1..];
        var k :| 0 <= k < |ys[1..]| && ys[1..][k] == z;
        assert ys[1 + k] == z;
      }
    }
  }

  /** An insertion sort by id, descending. */
  function SortByIdDesc(xs: seq<Transaction>): (r: seq<Transaction>)
    ensures multiset(r) == multiset(xs)
    ensures |r| == |xs|
    ensures SortedByIdDesc(r)
  {
    if xs == [] then []
    else
      assert xs == [xs[0]] + xs[1..];
      assert multiset(xs) == multiset(xs[1..]) + multiset{xs[0]};
      var rest := SortByIdDesc(xs[1..]);
      InsertByIdSorted(xs[0], rest);
      var r := InsertById(xs[0], rest);
      assert |r| == |multiset(r)|;
      r
  }

  /** The entries before sorting. */
  function Candidates(sales: seq<Sale>, expenses: seq<Expense>): seq<Transaction>
  {
    MapSeq(Take(sales, 5), SaleItem) + MapSeq(Take(expenses, 5), ExpenseItem)
  }

  /** `transactions`. */
  function Recent(sales: seq<Sale>, expenses: seq<Expense>): (r: seq<Transaction>)
    ensures |r| == Min(5, |sales|) + Min(5, |expenses|) <= 10
    ensures SortedByIdDesc(r)
    ensures multiset(r) == multiset(Candidates(sales, expenses))
    ensures r == [] <==> sales == [] && expenses == []
  {
    var sorted := SortByIdDesc(Candidates(sales, expenses));
    assert |sorted| <= 10;
    assert Take(sorted, 10) == sorted;
    assert sorted == [] <==> Candidates(sales, expenses) == [];
    Take(sorted, 10)
  }

  /** The card holds exactly the entries of the first five sales and the first five
      expenses. */
  lemma {:induction false} OnCard(sales: seq<Sale>, expenses: seq<Expense>, t: Transaction)
    ensures t in Recent(sales, expenses) <==> t in Candidates(sales, expenses)
  {
    assert t in Recent(sales, expenses) <==> t in multiset(Recent(sales, expenses));
  }

  lemma SalesShown(sales: seq<Sale>, expenses: seq<Expense>, i: int)
    requires 0 <= i < Min(5, |sales|)
    ensures SaleItem(sales[i]) in Recent(sales, expenses)
  {
    var a := MapSeq(Take(sales, 5), SaleItem);
    assert a[i] == SaleItem(sales[i]);
    assert Candidates(sales, expenses)[i] == a[i];
    OnCard(sales, expenses, SaleItem(sales[i]));
  }

  lemma ExpensesShown(sales: seq<Sale>, expenses: seq<Expense>, i: int)
    requires 0 <= i < Min(5, |expenses|)
    ensures ExpenseItem(expenses[i]) in Recent(sales, expenses)
  {
    var a := MapSeq(Take(sales, 5), SaleItem);
    var b := MapSeq(Take(expenses, 5), ExpenseItem);
    assert b[i] == ExpenseItem(expenses[i]);
    assert Candidates(sales, expenses)[|a| + i] == b[i];
    OnCard(sales, expenses, ExpenseItem(expenses[i]));
  }

  ghost predicate FromFirstFive(sales: seq<Sale>, expenses: seq<Expense>, t: Transaction)
  {
    (exists i :: 0 <= i < Min(5, |sales|) && t == SaleItem(sales[i]))
    || (exists i :: 0 <= i < Min(5, |expenses|) && t == ExpenseItem(expenses[i]))
  }

  lemma OnlyFirstFive(sales: seq<Sale>, expenses: seq<Expense>, t: Transaction)
    requires t in Candidates(sales, expenses)
    ensures FromFirstFive(sales, expenses, t)
  {
    var a := MapSeq(Take(sales, 5), SaleItem);
    var b := MapSeq(Take(expenses, 5), ExpenseItem);
    if t in a {
      var k :| 0 <= k < |a| && a[k] == t;
      assert t == SaleItem(sales[k]);
    } else {
      assert t in b;
      var k :| 0 <= k < |b| && b[k] == t;
      assert t == ExpenseItem(expenses[k]);
    }
  }

  /** A sale row shows "Penjualan " and its menu item under the category "Penjualan"; an
      expense row keeps its own description, category and amount. */
  lemma RowShapes(sales: seq<Sale>, expenses: seq<Expense>)
    ensures forall t :: t in Recent(sales, expenses) && t.kind == SaleTx ==>
      t.category == "Penjualan"
      && exists i :: 0 <= i < Min(5, |sales|) && t.description == "Penjualan " + sales[i].menuItem
                     && t.amount == sales[i].total && t.id == sales[i].id
    ensures forall t :: t in Recent(sales, expenses) && t.kind == ExpenseTx ==>
      exists i :: 0 <= i < Min(5, |expenses|) && t.description == expenses[i].description
                  && t.category == expenses[i].category && t.amount == expenses[i].amount
                  && t.id == expenses[i].id
  {
    forall t | t in Recent(sales, expenses) ensures FromFirstFive(sales, expenses, t) {
      OnCard(sales, expenses, t);
      OnlyFirstFive(sales, expenses, t);
    }
  }

  /** The card's "no transactions" message shows exactly when both lists are empty. */
  predicate ShowsNoTransactions(sales: seq<Sale>, expenses: seq<Expense>)
  {
    |Recent(sales, expenses)| == 0
  }

  lemma NoTransactionsIffEmpty(sales: seq<Sale>, expenses: seq<Expense>)
    ensures ShowsNoTransactions(sales, expenses) <==> sales == [] && expenses == []
  {
  }
}
