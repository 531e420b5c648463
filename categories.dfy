/** The option lists of the category selectors, and the label lookup the list pages use. */
module Categories {
  import opened Wrappers

  datatype CategoryOption = CategoryOption(value: string, caption: string)

  /** `options.find(c => c.value === value)`. */
  function Find(options: seq<CategoryOption>, value: string): (r: Option<CategoryOption>)
    ensures r.Some? <==> exists i :: 0 <= i < |options| && options[i].value == value
    ensures r.Some? ==> r.value in options && r.value.value == value
  {
    if options == [] then None
    else if options[0].value == value then Some(options[0])
    else Find(options[1..], value)
  }

  /** `options.find(c => c.value === value)?.label || value` (the label is `caption` here). */
  function Label(options: seq<CategoryOption>, value: string): string
  {
    var found := Find(options, value);
    if found.Some? && found.value.caption != "" then found.value.caption else value
  }

  /** A listed value shows the label of its first entry; any other value shows itself. */
  lemma {:induction false} LabelLookup(options: seq<CategoryOption>, value: string, i: int)
    requires 0 <= i < |options| && options[i].value == value && options[i].caption != ""
    requires forall j :: 0 <= j < i ==> options[j].value != value
    ensures Label(options, value) == options[i].caption
  {
    if i > 0 {
      LabelLookup(options[1..], value, i - 1);
    }
  }

  lemma LabelFallback(options: seq<CategoryOption>, value: string)
    requires forall i :: 0 <= i < |options| ==> options[i].value != value
    ensures Label(options, value) == value
  {
  }

  /** The sales page's category options. */
  const SalesCategories: seq<CategoryOption> := [
    CategoryOption("all", "Semua Kategori"),
    CategoryOption("dine-in", "Dine In"),
    CategoryOption("takeaway", "Takeaway"),
    CategoryOption("online", "Online"),
    CategoryOption("catering", "Catering")]

  /** The expenses page's category options. */
  const ExpenseCategories: seq<CategoryOption> := [
    CategoryOption("all", "Semua Kategori"),
    CategoryOption("bahan-baku", "Bahan Baku"),
    CategoryOption("gaji", "Gaji Karyawan"),
    CategoryOption("utilitas", "Listrik & Air"),
    CategoryOption("peralatan", "Peralatan"),
    CategoryOption("transportasi", "Transportasi"),
    CategoryOption("lainnya", "Lainnya")]

  /** The label in the sales table's category column. */
  function SalesLabel(category: string): string
  {
    Label(SalesCategories, category)
  }

  /** The label in the expenses table's category column. */
  function ExpenseLabel(category: string): string
  {
    Label(ExpenseCategories, category)
  }

  lemma SalesLabels()
    ensures SalesLabel("dine-in") == "Dine In" && SalesLabel("catering") == "Catering"
  {
    LabelLookup(SalesCategories, "dine-in", 1);
    LabelLookup(SalesCategories, "catering", 4);
  }

  lemma ExpenseLabels()
    ensures ExpenseLabel("utilitas") == "Listrik & Air"
  {
    LabelLookup(ExpenseCategories, "utilitas", 3);
  }

  /** A category missing from the list (one stored by another client) is shown raw. */
  lemma UnlistedSalesCategoryShownRaw(c: string)
    requires forall i :: 0 <= i < |SalesCategories| ==> SalesCategories[i].value != c
    ensures SalesLabel(c) == c
  {
    LabelFallback(SalesCategories, c);
  }

  lemma UnlistedExpenseCategoryShownRaw(c: string)
    requires forall i :: 0 <= i < |ExpenseCategories| ==> ExpenseCategories[i].value != c
    ensures ExpenseLabel(c) == c
  {
    LabelFallback(ExpenseCategories, c);
  }
}
