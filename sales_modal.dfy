/** The "Tambah Penjualan" form: its defaults, the quantity input's fallback, the live
    total preview and the total that the submit handler recomputes. */
module SalesModal {
  import opened Ledger

  /** A JavaScript number as the form's arithmetic produces it: `NaN` from an unparseable
      string, otherwise an exact amount in cents (or a plain count). */
  datatype Num = NaN | Num(value: int)

  /** The form's values; price and total are the decimal strings the schema expects. */
  datatype SaleForm = SaleForm(menuItem: string, category: string, quantity: int, price: string,
                               total: string, datetime: Time, notes: string)

  /** `defaultValues`; `now` is the `new Date()` taken when the form is created. */
  function Defaults(now: Time): (r: SaleForm)
    ensures r.quantity == 1 && r.category == "dine-in" && r.price == "0" && r.total == "0"
    ensures r.menuItem == "" && r.notes == "" && r.datetime == now
  {
    SaleForm("", "dine-in", 1, "0", "0", now, "")
  }

  /** `x || d` on a number: `NaN` and 0 are falsy. */
  function OrElse(x: Num, d: int): int
  {
    if x.Num? && x.value != 0 then x.value else d
  }

  /** The quantity input's `parseInt(value) || 1`: the stored quantity is never 0. */
  function QuantityInput(parsed: Num): (r: int)
    ensures r != 0
    ensures parsed.Num? && parsed.value != 0 ==> r == parsed.value
    ensures parsed == NaN || parsed == Num(0) ==> r == 1
  {
    OrElse(parsed, 1)
  }

  /** `a * b` where `a` may be `NaN`. */
  function Times(a: Num, b: int): (r: Num)
    ensures r == NaN <==> a == NaN
    ensures a.Num? ==> r.value == a.value * b
  {
    if a.NaN? then NaN else Num(a.value * b)
  }

  /** The preview under the price field: `(parseFloat(price) || 0) * (quantity || 0)`. */
  function Preview(form: SaleForm, parsePrice: string -> Num): (r: int)
    ensures parsePrice(form.price) == NaN ==> r == 0
    ensures form.quantity == 0 ==> r == 0
    ensures parsePrice(form.price).Num? ==> r == parsePrice(form.price).value * form.quantity
  {
    OrElse(parsePrice(form.price), 0) * OrElse(Num(form.quantity), 0)
  }

  /** `onSubmit`: the form's data with `total` replaced by the price times the quantity,
      written back as a string by `show` (Number#toString). */
  function Submit(form: SaleForm, parsePrice: string -> Num, show: Num -> string): (r: SaleForm)
    ensures r.total == show(Times(parsePrice(form.price), form.quantity))
    ensures r.menuItem == form.menuItem && r.category == form.category && r.quantity == form.quantity
    ensures r.price == form.price && r.datetime == form.datetime && r.notes == form.notes
  {
    form.(total := show(Times(parsePrice(form.price), form.quantity)))
  }

  /** The submitted total does not depend on what the form's total field held. */
  lemma SubmittedTotalIgnoresFormTotal(form: SaleForm, t: string, parsePrice: string -> Num, show: Num -> string)
    ensures Submit(form.(total := t), parsePrice, show) == Submit(form, parsePrice, show)
  {
  }

  /** When the price parses, the preview shows exactly the amount that is submitted; an
      unparseable price previews as 0 but is submitted as `NaN`. */
  lemma PreviewAgreesWithSubmit(form: SaleForm, parsePrice: string -> Num, show: Num -> string)
    ensures parsePrice(form.price).Num? ==>
      Submit(form, parsePrice, show).total == show(Num(Preview(form, parsePrice)))
    ensures parsePrice(form.price) == NaN ==>
      Preview(form, parsePrice) == 0 && Submit(form, parsePrice, show).total == show(NaN)
  {
  }

  /** The untouched form previews 0 and submits a total of `0 * 1`. */
  lemma DefaultsPreviewZero(now: Time, parsePrice: string -> Num, show: Num -> string)
    requires parsePrice("0") == Num(0)
    ensures Preview(Defaults(now), parsePrice) == 0
    ensures Submit(Defaults(now), parsePrice, show).total == show(Num(0))
  {
  }
}
