/** The balance sheet page: assets and liabilities are split into buckets by their
    type string, equity is capital plus the period's profit, and the sheet is shown as
    balanced when the two sides differ by less than one rupiah. */
module BalanceSheet {
  import opened Seqs
  import opened Ledger

  /** The asset types the asset form offers. */
  const AssetKinds: seq<string> := ["kas", "bank", "peralatan", "inventori", "properti", "kendaraan"]
  /** The liability types the liability form offers. */
  const LiabilityKinds: seq<string> :=
    ["utang-supplier", "pinjaman-bank", "utang-gaji", "utang-pajak", "utang-sewa", "lainnya"]

  predicate IsCurrentAsset(a: Asset) { a.kind in ["kas", "bank", "inventori"] }
  predicate IsFixedAsset(a: Asset) { a.kind in ["peralatan", "properti", "kendaraan"] }
  predicate IsBucketedAsset(a: Asset) { IsCurrentAsset(a) || IsFixedAsset(a) }

  predicate IsCurrentLiability(l: Liability) { l.kind in ["utang-supplier", "utang-gaji", "utang-sewa"] }
  predicate IsLongTermLiability(l: Liability) { l.kind in ["pinjaman-bank"] }
  predicate IsBucketedLiability(l: Liability) { IsCurrentLiability(l) || IsLongTermLiability(l) }

  datatype AssetTotals = AssetTotals(currentAssets: Money, fixedAssets: Money, totalAssets: Money)
  datatype LiabilityTotals =
    LiabilityTotals(currentLiabilities: Money, longTermLiabilities: Money, totalLiabilities: Money)
  datatype EquityTotals = EquityTotals(capital: Money, retainedEarnings: Money, totalEquity: Money)
  datatype BalanceSheetData = BalanceSheetData(
    assets: AssetTotals,
    liabilities: LiabilityTotals,
    equity: EquityTotals,
    totalLiabilitiesAndEquity: Money)

  /** The sheet for the period's sales and expenses and all assets, capital and liabilities. */
  function CalculateBalanceSheet(sales: seq<Sale>, expenses: seq<Expense>, assets: seq<Asset>,
                                 capital: seq<Capital>, liabilities: seq<Liability>): (b: BalanceSheetData)
    ensures b.assets.totalAssets == Sum(Filter(assets, IsBucketedAsset), AssetValue)
    ensures b.assets.currentAssets == Sum(Filter(assets, IsCurrentAsset), AssetValue)
    ensures b.assets.fixedAssets == Sum(Filter(assets, IsFixedAsset), AssetValue)
    ensures b.assets.totalAssets == b.assets.currentAssets + b.assets.fixedAssets
    ensures b.liabilities.totalLiabilities == Sum(Filter(liabilities, IsBucketedLiability), LiabilityAmount)
    ensures b.liabilities.currentLiabilities == Sum(Filter(liabilities, IsCurrentLiability), LiabilityAmount)
    ensures b.liabilities.longTermLiabilities ==
      Sum(Filter(liabilities, IsLongTermLiability), LiabilityAmount)
    ensures b.liabilities.totalLiabilities ==
      b.liabilities.currentLiabilities + b.liabilities.longTermLiabilities
    ensures b.equity.capital == Sum(capital, CapitalAmount)
    ensures b.equity.retainedEarnings == Sum(sales, SaleTotal) - Sum(expenses, ExpenseAmount)
    ensures b.equity.totalEquity == b.equity.capital + b.equity.retainedEarnings
    ensures b.totalLiabilitiesAndEquity == b.liabilities.totalLiabilities + b.equity.totalEquity
  {
    SumFilterSplit(assets, IsCurrentAsset, IsFixedAsset, IsBucketedAsset, AssetValue);
    SumFilterSplit(liabilities, IsCurrentLiability, IsLongTermLiability, IsBucketedLiability,
                   LiabilityAmount);
    var currentAssets := Sum(Filter(assets, IsCurrentAsset), AssetValue);
    var fixedAssets := Sum(Filter(assets, IsFixedAsset), AssetValue);
    var currentLiabilities := Sum(Filter(liabilities, IsCurrentLiability), LiabilityAmount);
    var longTermLiabilities := Sum(Filter(liabilities, IsLongTermLiability), LiabilityAmount);
    var totalLiabilities := currentLiabilities + longTermLiabilities;
    var totalCapital := Sum(capital, CapitalAmount);
    var retainedEarnings := Sum(sales, SaleTotal) - Sum(expenses, ExpenseAmount);
    var totalEquity := totalCapital + retainedEarnings;
    BalanceSheetData(
      AssetTotals(currentAssets, fixedAssets, currentAssets + fixedAssets),
      LiabilityTotals(currentLiabilities, longTermLiabilities, totalLiabilities),
      EquityTotals(totalCapital, retainedEarnings, totalEquity),
      totalLiabilities + totalEquity)
  }

  function Abs(x: int): (r: nat)
    ensures r == x || r == -x
  {
    if x < 0 then -x else x
  }

  /** The "Selisih" shown under the badge. */
  function Difference(b: BalanceSheetData): (r: nat)
    ensures r == b.assets.totalAssets - b.totalLiabilitiesAndEquity
         || r == b.totalLiabilitiesAndEquity - b.assets.totalAssets
  {
    Abs(b.assets.totalAssets - b.totalLiabilitiesAndEquity)
  }

  /** "Seimbang": the sides differ by less than one rupiah (100 cents). */
  predicate IsBalanced(b: BalanceSheetData)
  {
    Difference(b) < 100
  }

  /** Balanced, stated on the five input lists. */
  lemma BalancedOnInputs(sales: seq<Sale>, expenses: seq<Expense>, assets: seq<Asset>,
                         capital: seq<Capital>, liabilities: seq<Liability>)
    ensures IsBalanced(CalculateBalanceSheet(sales, expenses, assets, capital, liabilities)) <==>
      var gap := Sum(Filter(assets, IsBucketedAsset), AssetValue)
        - (Sum(Filter(liabilities, IsBucketedLiability), LiabilityAmount)
           + Sum(capital, CapitalAmount) + Sum(sales, SaleTotal) - Sum(expenses, ExpenseAmount));
      -100 < gap < 100
  {
  }

  /** With nothing recorded every figure is zero and the sheet is balanced. */
  lemma EmptyIsBalanced()
    ensures var b := CalculateBalanceSheet([], [], [], [], []);
      b == BalanceSheetData(AssetTotals(0, 0, 0), LiabilityTotals(0, 0, 0), EquityTotals(0, 0, 0), 0)
      && IsBalanced(b) && Difference(b) == 0
  {
  }

  /** A liability of a type outside the four bucketed ones (a tax debt "utang-pajak" or
      "lainnya") changes nothing on the sheet. */
  lemma UnbucketedLiabilityIgnored(sales: seq<Sale>, expenses: seq<Expense>, assets: seq<Asset>,
                                   capital: seq<Capital>, liabilities: seq<Liability>, l: Liability)
    requires !IsBucketedLiability(l)
    ensures CalculateBalanceSheet(sales, expenses, assets, capital, liabilities + [l])
         == CalculateBalanceSheet(sales, expenses, assets, capital, liabilities)
  {
    FilterAppend(liabilities, [l], IsCurrentLiability);
    FilterAppend(liabilities, [l], IsLongTermLiability);
    assert Filter([l], IsCurrentLiability) == [] && Filter([l], IsLongTermLiability) == [];
    assert Filter(liabilities + [l], IsCurrentLiability) == Filter(liabilities, IsCurrentLiability);
    assert Filter(liabilities + [l], IsLongTermLiability) == Filter(liabilities, IsLongTermLiability);
  }

  /** Exactly two of the six liability types fall into no bucket. */
  lemma UnbucketedLiabilityKinds()
    ensures forall i :: 0 <= i < |LiabilityKinds| ==>
      (LiabilityKinds[i] in ["utang-pajak", "lainnya"] <==>
       !(LiabilityKinds[i] in ["utang-supplier", "utang-gaji", "utang-sewa"]
         || LiabilityKinds[i] in ["pinjaman-bank"]))
  {
  }

  /** No type is both a current and a fixed asset. */
  lemma BucketsDisjoint(a: Asset)
    ensures !(IsCurrentAsset(a) && IsFixedAsset(a))
  {
    if IsCurrentAsset(a) {
      assert a.kind == "kas" || a.kind == "bank" || a.kind == "inventori";
    }
  }

  /** Every asset type of the form falls into exactly one bucket. */
  lemma AssetKindsBucketed(a: Asset)
    requires a.kind in AssetKinds
    ensures IsBucketedAsset(a) && !(IsCurrentAsset(a) && IsFixedAsset(a))
  {
  }

  /** One more asset of a bucketed type raises total assets by its value, its own bucket
      likewise, and leaves liabilities and equity as they were. */
  lemma AddBucketedAsset(sales: seq<Sale>, expenses: seq<Expense>, assets: seq<Asset>,
                         capital: seq<Capital>, liabilities: seq<Liability>, a: Asset)
    requires IsBucketedAsset(a)
    ensures var before := CalculateBalanceSheet(sales, expenses, assets, capital, liabilities);
      var after := CalculateBalanceSheet(sales, expenses, assets + [a], capital, liabilities);
      && after.assets.totalAssets == before.assets.totalAssets + a.value
      && after.assets.currentAssets == before.assets.currentAssets + (if IsCurrentAsset(a) then a.value else 0)
      && after.assets.fixedAssets == before.assets.fixedAssets + (if IsFixedAsset(a) then a.value else 0)
      && after.liabilities == before.liabilities
      && after.equity == before.equity
  {
    SumFilterSnoc(assets, a, IsCurrentAsset, AssetValue);
    SumFilterSnoc(assets, a, IsFixedAsset, AssetValue);
    BucketsDisjoint(a);
  }

  /** Spending with no sales drives retained earnings, and so equity, below capital. */
  lemma RetainedEarningsCanBeNegative(e: Expense)
    requires e.amount > 0
    ensures var b := CalculateBalanceSheet([], [e], [], [], []);
      b.equity.retainedEarnings == -e.amount && b.equity.totalEquity < b.equity.capital
  {
    assert [e][1..] == [];
    assert Sum([e], ExpenseAmount) == e.amount;
  }

  /** The tolerance: 99 cents apart still reads as balanced, one rupiah apart does not. */
  lemma BalanceTolerance(a: Asset, c: Capital)
    requires a.kind == "kas" && a.value == 10_000_00
    ensures c.amount == 10_000_00 - 99 ==> IsBalanced(CalculateBalanceSheet([], [], [a], [c], []))
    ensures c.amount == 10_000_00 - 100 ==> !IsBalanced(CalculateBalanceSheet([], [], [a], [c], []))
  {
    assert [a][1..] == [] && [c][1..] == [];
    assert Filter([a], IsCurrentAsset) == [a];
    assert Sum([a], AssetValue) == a.value;
    assert Sum([c], CapitalAmount) == c.amount;
  }

  /** Cash of Rp 15,000,000 and equipment of Rp 85,000,000 (in cents) make current assets
      of Rp 15,000,000, fixed assets of Rp 85,000,000 and Rp 100,000,000 in total. */
  lemma CashAndEquipmentExample(cash: Asset, equipment: Asset)
    requires cash.kind == "kas" && cash.value == 1500000000
    requires equipment.kind == "peralatan" && equipment.value == 8500000000
    ensures var b := CalculateBalanceSheet([], [], [cash, equipment], [], []);
      b.assets == AssetTotals(1500000000, 8500000000, 10000000000)
  {
    AddBucketedAsset([], [], [], [], [], cash);
    AddBucketedAsset([], [], [cash], [], [], equipment);
    assert [] + [cash] == [cash] && [cash] + [equipment] == [cash, equipment];
  }
}
