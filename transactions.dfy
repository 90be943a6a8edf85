/** One transaction record of the upstream dataset, and the JavaScript coercions the pipeline applies to its fields. */
module Transactions {
  import opened Wrappers
  import opened Numbers

  /** A JSON field value as the dataset may hold it in `price` or `sold`. */
  datatype Value =
    | Missing              // the field is absent, or null (the two differ only under `isNaN`, behind a falsy guard)
    | Text(text: string)   // a string; when non-empty it does not read as a number
    | Flag(flag: bool)     // a JSON boolean
    | Num(num: Decimal)    // a JSON number

  /** A transaction record. Optional text fields are `None` when absent or null. */
  datatype Record = Record(
    id: int,
    title: Option<string>,
    description: Option<string>,
    price: Value,
    category: Option<string>,
    image: string,
    sold: Value,
    dateOfSale: Option<string>)

  /** JavaScript truthiness: `undefined`, `null`, `''`, `false` and `0` are falsy. */
  predicate Truthy(v: Value) {
    match v
    case Missing => false
    case Text(s) => s != ""
    case Flag(b) => b
    case Num(d) => d.digits != 0
  }

  /** The global `isNaN`: true when the value does not convert to a number. `isNaN(undefined)` is true while
      `isNaN(null)` is false; `Missing` takes the `undefined` answer, which no guard observes because
      `Missing` is falsy (`IsCountable` below). */
  predicate IsNaN(v: Value) {
    match v
    case Missing => true
    case Text(s) => s != ""
    case Flag(_) => false
    case Num(_) => false
  }

  /** `v && !isNaN(v)`, the guard the aggregators put on `price` and on `sold`. */
  predicate IsCountable(v: Value) {
    Truthy(v) && !IsNaN(v)
  }

  /** Exactly `true` and the non-zero numbers pass the guard. */
  lemma CountableValues(v: Value)
    ensures IsCountable(v) <==> v == Flag(true) || (v.Num? && DecimalValue(v.num) != 0.0)
  {
    if v.Num? {
      ZeroIffZeroDigits(v.num);
    }
  }

  /** A JavaScript number that may be NaN; no other IEEE value arises here. */
  datatype Float = NaN | Real(value: real)

  /** `parseFloat(v)`: a number parses to itself; `true` reads as the string "true", which is NaN. */
  function ParseFloat(v: Value): (f: Float)
    requires IsCountable(v)
    ensures f.NaN? <==> v.Flag?
    ensures v.Num? ==> f == Real(DecimalValue(v.num))
  {
    match v
    case Num(d) => Real(DecimalValue(d))
    case Flag(_) => NaN
  }

  /** Addition, with NaN absorbing. */
  function Add(a: Float, b: Float): (r: Float)
    ensures r.NaN? <==> a.NaN? || b.NaN?
    ensures r.Real? ==> r.value == a.value + b.value
  {
    if a.NaN? || b.NaN? then NaN else Real(a.value + b.value)
  }

  /** The number `total + v` adds for a value that passed the guard: `true` adds 1. */
  function Quantity(v: Value): (q: real)
    requires IsCountable(v)
    ensures q != 0.0
    ensures v.Num? ==> q == DecimalValue(v.num)
    ensures v.Flag? ==> q == 1.0
  {
    match v
    case Num(d) => ZeroIffZeroDigits(d); DecimalValue(d)
    case Flag(_) => 1.0
  }

  /** `String(v || '')`, the text the search matches against `price`. */
  function PriceText(v: Value): (s: string)
    ensures !Truthy(v) ==> s == ""
    ensures Truthy(v) ==> s == match v case Num(d) => NumberToString(d) case Text(t) => t case _ => "true"
  {
    match v
    case Missing => ""
    case Text(s) => s
    case Flag(b) => if b then "true" else ""
    case Num(d) => if d.digits == 0 then "" else NumberToString(d)
  }
}
