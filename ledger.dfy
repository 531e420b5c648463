/** The five record kinds of the bookkeeping ledger, the user record, and the
    payloads that create them (the columns of the shared table definitions). */
module Ledger {
  import opened Wrappers

  /** An amount of rupiah, counted in cents: every money column is decimal(12,2). */
  type Money = int
  /** A point in time, in milliseconds since the epoch (a JavaScript `Date`). */
  type Time = int
  /** A record identifier (a UUID string). */
  type Id = string

  datatype Sale = Sale(
    id: Id, menuItem: string, category: string, quantity: int, price: Money,
    total: Money, datetime: Time, notes: Option<string>, createdAt: Time)

  datatype Expense = Expense(
    id: Id, category: string, description: string, amount: Money, datetime: Time,
    paymentMethod: string, notes: Option<string>, createdAt: Time)

  /** `kind` is the `type` column: kas, bank, peralatan, inventori, properti or kendaraan. */
  datatype Asset = Asset(
    id: Id, kind: string, name: string, value: Money, acquisitionDate: Time,
    description: Option<string>, createdAt: Time)

  datatype Capital = Capital(
    id: Id, source: string, amount: Money, date: Time, description: Option<string>,
    createdAt: Time)

  /** `kind` is the `type` column: utang-supplier, pinjaman-bank, utang-gaji,
      utang-pajak, utang-sewa or lainnya. */
  datatype Liability = Liability(
    id: Id, kind: string, creditor: string, amount: Money, dueDate: Time,
    status: string, notes: Option<string>, createdAt: Time)

  datatype User = User(
    id: Id, email: Option<string>, firstName: Option<string>, lastName: Option<string>,
    profileImageUrl: Option<string>, createdAt: Time, updatedAt: Time)

  /** Validated insert payloads: the columns without id and createdAt; a column with a
      database default or a nullable column may be absent. */
  datatype NewSale = NewSale(
    menuItem: string, category: Option<string>, quantity: int, price: Money,
    total: Money, datetime: Time, notes: Option<string>)

  datatype NewExpense = NewExpense(
    category: string, description: string, amount: Money, datetime: Time,
    paymentMethod: string, notes: Option<string>)

  datatype NewAsset = NewAsset(
    kind: string, name: string, value: Money, acquisitionDate: Time,
    description: Option<string>)

  datatype NewCapital = NewCapital(
    source: string, amount: Money, date: Time, description: Option<string>)

  datatype NewLiability = NewLiability(
    kind: string, creditor: string, amount: Money, dueDate: Time,
    status: Option<string>, notes: Option<string>)

  /** The identity-provider claims handed to `upsertUser`. */
  datatype UserData = UserData(
    id: Option<Id>, email: Option<string>, firstName: Option<string>,
    lastName: Option<string>, profileImageUrl: Option<string>)

  // Field selectors, for the generic sums, filters and sorts.
  function SaleTotal(s: Sale): Money { s.total }
  function SaleQuantity(s: Sale): int { s.quantity }
  function SaleDatetime(s: Sale): Time { s.datetime }
  function SaleCreatedAt(s: Sale): Time { s.createdAt }
  function ExpenseAmount(e: Expense): Money { e.amount }
  function ExpenseDatetime(e: Expense): Time { e.datetime }
  function ExpenseCreatedAt(e: Expense): Time { e.createdAt }
  function AssetValue(a: Asset): Money { a.value }
  function AssetCreatedAt(a: Asset): Time { a.createdAt }
  function CapitalAmount(c: Capital): Money { c.amount }
  function CapitalCreatedAt(c: Capital): Time { c.createdAt }
  function LiabilityAmount(l: Liability): Money { l.amount }
  function LiabilityCreatedAt(l: Liability): Time { l.createdAt }
}
