/** The in-memory ledger store (`MemStorage`): five independent collections keyed by
    record id, plus the users, each a JavaScript `Map` that keeps insertion order. */
module Storage {
  import opened Wrappers
  import opened Seqs
  import opened Sorting
  import opened Ledger

  /** `keys` without `k`. */
  function Without(keys: seq<Id>, k: Id): (r: seq<Id>)
    ensures forall x :: x in r <==> x in keys && x != k
  {
    if keys == [] then []
    else (if keys[0] == k then [] else [keys[0]]) + Without(keys[1..], k)
  }

  ghost predicate Distinct(keys: seq<Id>)
  {
    forall i, j :: 0 <= i < j < |keys| ==> keys[i] != keys[j]
  }

  lemma {:induction false} WithoutDistinct(keys: seq<Id>, k: Id)
    requires Distinct(keys)
    ensures Distinct(Without(keys, k))
    ensures |Without(keys, k)| == if k in keys then |keys| - 1 else |keys|
  {
    if keys != [] {
      assert Distinct(keys[1..]);
      WithoutDistinct(keys[1..], k);
      assert keys[0] !in keys[1..];
    }
  }

  /** A JavaScript `Map<string, V>`: the entries, and the keys in insertion order. */
  datatype IdMap<V> = IdMap(keys: seq<Id>, entries: map<Id, V>) {

    ghost predicate Valid()
    {
      Distinct(keys) && forall k :: k in entries <==> k in keys
    }

    static function Empty(): (m: IdMap<V>)
      ensures m.Valid() && m.entries == map[]
    {
      IdMap([], map[])
    }

    /** `Array.from(m.values())`. */
    function Values(): (r: seq<V>)
      requires Valid()
      ensures |r| == |keys|
      ensures forall i :: 0 <= i < |keys| ==> r[i] == entries[keys[i]]
    {
      seq(|keys|, i requires 0 <= i < |keys| => entries[keys[i]])
    }

    /** `m.get(k)`. */
    function Get(k: Id): (r: Option<V>)
      ensures r.Some? <==> k in entries
      ensures r.Some? ==> r.value == entries[k]
    {
      if k in entries then Some(entries[k]) else None
    }

    /** `m.set(k, v)`: a new key goes last; an existing key keeps its position. */
    function Set(k: Id, v: V): (m: IdMap<V>)
      requires Valid()
      ensures m.Valid()
      ensures m.entries == entries[k := v]
      ensures m.keys == if k in entries then keys else keys + [k]
    {
      if k in entries then IdMap(keys, entries[k := v]) else IdMap(keys + [k], entries[k := v])
    }

    /** The map once `m.delete(k)` has run. */
    function Delete(k: Id): (m: IdMap<V>)
      requires Valid()
      ensures m.Valid()
      ensures m.entries == entries - {k}
      ensures m.keys == Without(keys, k)
      ensures |m.keys| == if k in entries then |keys| - 1 else |keys|
    {
      WithoutDistinct(keys, k);
      IdMap(Without(keys, k), entries - {k})
    }
  }

  /** Setting a fresh key appends its value to the iteration order. */
  lemma SetFreshValues<V>(m: IdMap<V>, k: Id, v: V)
    requires m.Valid() && k !in m.entries
    ensures m.Set(k, v).Values() == m.Values() + [v]
  {
    var n := m.Set(k, v);
    assert forall i :: 0 <= i < |m.keys| ==> m.keys[i] != k;
    assert n.Values() == m.Values() + [v];
  }

  /** Whatever key is set, its value can be listed afterwards. */
  lemma SetValuesContain<V>(m: IdMap<V>, k: Id, v: V)
    requires m.Valid()
    ensures v in m.Set(k, v).Values()
  {
    var n := m.Set(k, v);
    var i :| 0 <= i < |n.keys| && n.keys[i] == k;
    assert n.Values()[i] == v;
  }

  /** Deleting twice: the key is gone after the first delete, so the second finds nothing. */
  lemma DeleteTwice<V>(m: IdMap<V>, k: Id)
    requires m.Valid()
    ensures k !in m.Delete(k).entries
    ensures m.Delete(k).Delete(k).entries == m.Delete(k).entries
  {
    var d := m.Delete(k);
    assert d.entries == m.entries - {k};
    assert d.entries - {k} == d.entries;
  }

  /** The records of `xs` whose time lies in [start, end], in their original order. */
  function InRange<T(!new)>(xs: seq<T>, at: T -> Time, start: Time, end: Time): (r: seq<T>)
    ensures forall x :: x in r <==> x in xs && start <= at(x) <= end
  {
    if xs == [] then []
    else (if start <= at(xs[0]) <= end then [xs[0]] else []) + InRange(xs[1..], at, start, end)
  }

  lemma {:induction false} InRangeSubseq<T(!new)>(xs: seq<T>, at: T -> Time, start: Time, end: Time)
    ensures Subseq(InRange(xs, at, start, end), xs)
  {
    if xs != [] {
      var r := InRange(xs, at, start, end);
      InRangeSubseq(xs[1..], at, start, end);
      if start <= at(xs[0]) <= end {
        assert r == [xs[0]] + InRange(xs[1..], at, start, end);
        assert r[1..] == InRange(xs[1..], at, start, end);
      } else {
        assert r == InRange(xs[1..], at, start, end);
      }
    }
  }

  /** A reversed range selects nothing. */
  lemma {:induction false} InRangeReversed<T(!new)>(xs: seq<T>, at: T -> Time, start: Time, end: Time)
    requires start > end
    ensures InRange(xs, at, start, end) == []
  {
    if xs != [] {
      InRangeReversed(xs[1..], at, start, end);
    }
  }

  class MemStorage {
    var sales: IdMap<Sale>
    var expenses: IdMap<Expense>
    var assets: IdMap<Asset>
    var capital: IdMap<Capital>
    var liabilities: IdMap<Liability>
    var users: IdMap<User>

    ghost predicate Valid()
      reads this
    {
      sales.Valid() && expenses.Valid() && assets.Valid() && capital.Valid()
      && liabilities.Valid() && users.Valid()
    }

    /** Every collection starts empty. */
    constructor ()
      ensures Valid()
      ensures sales.keys == [] && expenses.keys == [] && assets.keys == []
      ensures capital.keys == [] && liabilities.keys == [] && users.keys == []
    {
      sales, expenses, assets := IdMap.Empty(), IdMap.Empty(), IdMap.Empty();
      capital, liabilities, users := IdMap.Empty(), IdMap.Empty(), IdMap.Empty();
    }

    function GetUser(id: Id): (u: Option<User>)
      reads this
      ensures u.Some? <==> id in users.entries
      ensures u.Some? ==> u.value == users.entries[id]
    {
      users.Get(id)
    }

    /** Inserts or replaces a user. `freshId` is what `randomUUID()` returns and `now`
        what `new Date()` returns. A missing or empty id is replaced by `freshId`; an
        existing user keeps its creation time; empty or missing claims become null. */
    method UpsertUser(data: UserData, freshId: Id, now: Time) returns (u: User)
      requires Valid()
      modifies this
      ensures Valid()
      ensures u.id == if data.id.Some? && data.id.value != "" then data.id.value else freshId
      ensures u.createdAt ==
        if data.id.Some? && data.id.value in old(users.entries)
        then old(users.entries)[data.id.value].createdAt else now
      ensures u.updatedAt == now
      ensures u.email == NullIfEmpty(data.email) && u.firstName == NullIfEmpty(data.firstName)
      ensures u.lastName == NullIfEmpty(data.lastName)
      ensures u.profileImageUrl == NullIfEmpty(data.profileImageUrl)
      ensures users == old(users).Set(u.id, u)
      ensures sales == old(sales) && expenses == old(expenses) && assets == old(assets)
      ensures capital == old(capital) && liabilities == old(liabilities)
    {
      var existing := if data.id.Some? then users.Get(data.id.value) else None;
      var id := if data.id.Some? && data.id.value != "" then data.id.value else freshId;
      var createdAt := if existing.Some? then existing.value.createdAt else now;
      u := User(id, NullIfEmpty(data.email), NullIfEmpty(data.firstName),
                NullIfEmpty(data.lastName), NullIfEmpty(data.profileImageUrl), createdAt, now);
      users := users.Set(id, u);
    }

    /** All sales, newest first by creation time (ties in insertion order). */
    function GetSales(): (r: seq<Sale>)
      reads this
      requires Valid()
      ensures multiset(r) == multiset(sales.Values())
      ensures SortedDesc(r, SaleCreatedAt)
    {
      SortDesc(sales.Values(), SaleCreatedAt)
    }

    /** The sales whose datetime lies in [start, end], inclusive, in insertion order. */
    function GetSalesByDateRange(start: Time, end: Time): (r: seq<Sale>)
      reads this
      requires Valid()
      ensures forall s :: s in r <==> s in sales.Values() && start <= s.datetime <= end
      ensures Subseq(r, sales.Values())
    {
      InRangeSubseq(sales.Values(), SaleDatetime, start, end);
      InRange(sales.Values(), SaleDatetime, start, end)
    }

    /** Stores a sale under `id` (what `randomUUID()` returns); the category defaults
        to "dine-in" and the notes to null. */
    method CreateSales(data: NewSale, id: Id, now: Time) returns (s: Sale)
      requires Valid()
      modifies this
      ensures Valid()
      ensures s == Sale(id, data.menuItem, data.category.GetOr("dine-in"), data.quantity,
                        data.price, data.total, data.datetime, data.notes, now)
      ensures sales == old(sales).Set(id, s)
      ensures s in sales.Values()
      ensures expenses == old(expenses) && assets == old(assets) && capital == old(capital)
      ensures liabilities == old(liabilities) && users == old(users)
    {
      s := Sale(id, data.menuItem, data.category.GetOr("dine-in"), data.quantity,
                data.price, data.total, data.datetime, data.notes, now);
      SetValuesContain(sales, id, s);
      sales := sales.Set(id, s);
    }

    /** `sales.delete(id)`: true exactly when the id was stored; the id is gone after. */
    method DeleteSales(id: Id) returns (deleted: bool)
      requires Valid()
      modifies this
      ensures Valid()
      ensures deleted == (id in old(sales.entries))
      ensures sales == old(sales).Delete(id)
      ensures expenses == old(expenses) && assets == old(assets) && capital == old(capital)
      ensures liabilities == old(liabilities) && users == old(users)
    {
      deleted := id in sales.entries;
      sales := sales.Delete(id);
    }

    function GetExpenses(): (r: seq<Expense>)
      reads this
      requires Valid()
      ensures multiset(r) == multiset(expenses.Values())
      ensures SortedDesc(r, ExpenseCreatedAt)
    {
      SortDesc(expenses.Values(), ExpenseCreatedAt)
    }

    function GetExpensesByDateRange(start: Time, end: Time): (r: seq<Expense>)
      reads this
      requires Valid()
      ensures forall e :: e in r <==> e in expenses.Values() && start <= e.datetime <= end
      ensures Subseq(r, expenses.Values())
    {
      InRangeSubseq(expenses.Values(), ExpenseDatetime, start, end);
      InRange(expenses.Values(), ExpenseDatetime, start, end)
    }

    /** Stores an expense under `id`; the notes default to null. */
    method CreateExpense(data: NewExpense, id: Id, now: Time) returns (e: Expense)
      requires Valid()
      modifies this
      ensures Valid()
      ensures e == Expense(id, data.category, data.description, data.amount, data.datetime,
                           data.paymentMethod, data.notes, now)
      ensures expenses == old(expenses).Set(id, e)
      ensures e in expenses.Values()
      ensures sales == old(sales) && assets == old(assets) && capital == old(capital)
      ensures liabilities == old(liabilities) && users == old(users)
    {
      e := Expense(id, data.category, data.description, data.amount, data.datetime,
                   data.paymentMethod, data.notes, now);
      SetValuesContain(expenses, id, e);
      expenses := expenses.Set(id, e);
    }

    method DeleteExpense(id: Id) returns (deleted: bool)
      requires Valid()
      modifies this
      ensures Valid()
      ensures deleted == (id in old(expenses.entries))
      ensures expenses == old(expenses).Delete(id)
      ensures sales == old(sales) && assets == old(assets) && capital == old(capital)
      ensures liabilities == old(liabilities) && users == old(users)
    {
      deleted := id in expenses.entries;
      expenses := expenses.Delete(id);
    }

    function GetAssets(): (r: seq<Asset>)
      reads this
      requires Valid()
      ensures multiset(r) == multiset(assets.Values())
      ensures SortedDesc(r, AssetCreatedAt)
    {
      SortDesc(assets.Values(), AssetCreatedAt)
    }

    /** Stores an asset under `id`; the description defaults to null. */
    method CreateAsset(data: NewAsset, id: Id, now: Time) returns (a: Asset)
      requires Valid()
      modifies this
      ensures Valid()
      ensures a == Asset(id, data.kind, data.name, data.value, data.acquisitionDate,
                         data.description, now)
      ensures assets == old(assets).Set(id, a)
      ensures a in assets.Values()
      ensures sales == old(sales) && expenses == old(expenses) && capital == old(capital)
      ensures liabilities == old(liabilities) && users == old(users)
    {
      a := Asset(id, data.kind, data.name, data.value, data.acquisitionDate,
                 data.description, now);
      SetValuesContain(assets, id, a);
      assets := assets.Set(id, a);
    }

    method DeleteAsset(id: Id) returns (deleted: bool)
      requires Valid()
      modifies this
      ensures Valid()
      ensures deleted == (id in old(assets.entries))
      ensures assets == old(assets).Delete(id)
      ensures sales == old(sales) && expenses == old(expenses) && capital == old(capital)
      ensures liabilities == old(liabilities) && users == old(users)
    {
      deleted := id in assets.entries;
      assets := assets.Delete(id);
    }

    function GetCapital(): (r: seq<Capital>)
      reads this
      requires Valid()
      ensures multiset(r) == multiset(capital.Values())
      ensures SortedDesc(r, CapitalCreatedAt)
    {
      SortDesc(capital.Values(), CapitalCreatedAt)
    }

    /** Stores a capital contribution under `id`; the description defaults to null. */
    method CreateCapital(data: NewCapital, id: Id, now: Time) returns (c: Capital)
      requires Valid()
      modifies this
      ensures Valid()
      ensures c == Capital(id, data.source, data.amount, data.date, data.description, now)
      ensures capital == old(capital).Set(id, c)
      ensures c in capital.Values()
      ensures sales == old(sales) && expenses == old(expenses) && assets == old(assets)
      ensures liabilities == old(liabilities) && users == old(users)
    {
      c := Capital(id, data.source, data.amount, data.date, data.description, now);
      SetValuesContain(capital, id, c);
      capital := capital.Set(id, c);
    }

    method DeleteCapital(id: Id) returns (deleted: bool)
      requires Valid()
      modifies this
      ensures Valid()
      ensures deleted == (id in old(capital.entries))
      ensures capital == old(capital).Delete(id)
      ensures sales == old(sales) && expenses == old(expenses) && assets == old(assets)
      ensures liabilities == old(liabilities) && users == old(users)
    {
      deleted := id in capital.entries;
      capital := capital.Delete(id);
    }

    function GetLiabilities(): (r: seq<Liability>)
      reads this
      requires Valid()
      ensures multiset(r) == multiset(liabilities.Values())
      ensures SortedDesc(r, LiabilityCreatedAt)
    {
      SortDesc(liabilities.Values(), LiabilityCreatedAt)
    }

    /** Stores a liability under `id`; the status defaults to "pending", the notes to null. */
    method CreateLiability(data: NewLiability, id: Id, now: Time) returns (l: Liability)
      requires Valid()
      modifies this
      ensures Valid()
      ensures l == Liability(id, data.kind, data.creditor, data.amount, data.dueDate,
                             data.status.GetOr("pending"), data.notes, now)
      ensures liabilities == old(liabilities).Set(id, l)
      ensures l in liabilities.Values()
      ensures sales == old(sales) && expenses == old(expenses) && assets == old(assets)
      ensures capital == old(capital) && users == old(users)
    {
      l := Liability(id, data.kind, data.creditor, data.amount, data.dueDate,
                     data.status.GetOr("pending"), data.notes, now);
      SetValuesContain(liabilities, id, l);
      liabilities := liabilities.Set(id, l);
    }

    method DeleteLiability(id: Id) returns (deleted: bool)
      requires Valid()
      modifies this
      ensures Valid()
      ensures deleted == (id in old(liabilities.entries))
      ensures liabilities == old(liabilities).Delete(id)
      ensures sales == old(sales) && expenses == old(expenses) && assets == old(assets)
      ensures capital == old(capital) && users == old(users)
    {
      deleted := id in liabilities.entries;
      liabilities := liabilities.Delete(id);
    }
  }

  /** `x || null` for an optional string: the empty string counts as missing. */
  function NullIfEmpty(x: Option<string>): (r: Option<string>)
    ensures r.Some? <==> x.Some? && x.value != ""
    ensures r.Some? ==> r == x
  {
    if x.Some? && x.value != "" then x else None
  }

  /** A sale created and then deleted twice: stored and listed, then "deleted", then
      "not found"; the other collections never change. */
  method CreateThenDeleteTwice(store: MemStorage, data: NewSale, id: Id, now: Time)
    returns (first: bool, second: bool)
    requires store.Valid()
    modifies store
    ensures first && !second
    ensures id !in store.sales.entries
    ensures store.expenses == old(store.expenses) && store.assets == old(store.assets)
  {
    var s := store.CreateSales(data, id, now);
    assert s in multiset(store.GetSales());
    first := store.DeleteSales(id);
    second := store.DeleteSales(id);
  }
}
