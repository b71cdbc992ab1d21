/**
 * Kubernetes resource quantities (`resource.Quantity`) as far as the
 * syncers use them: an exact amount, its `Value()`, its `AsInt64()`, and the
 * binary and decimal suffixes of the literals they parse. Parsing a string
 * (`resource.ParseQuantity`) is not part of this model: its result is a
 * parameter wherever the core parses.
 */
module Quantity {
  import opened Wrappers

  /** A quantity, held exactly in thousandths of a unit (`1` is 1000, `200m` is 200). */
  datatype Quantity = Quantity(milli: int)

  const Ki: int := 1024
  const Mi: int := 1024 * 1024
  const Gi: int := 1024 * 1024 * 1024

  const MinInt64: int := -0x8000_0000_0000_0000
  const MaxInt64: int := 0x7fff_ffff_ffff_ffff

  /** `resource.ParseQuantity`, which the model does not define: a quantity or the parse error. */
  type Parser = string -> Result<Quantity, string>

  /** A whole number of units. */
  function Units(n: int): (q: Quantity)
    ensures q.milli == n * 1000
  {
    Quantity(n * 1000)
  }

  /** `Value()`: the amount rounded to a whole number, away from zero. */
  function Value(q: Quantity): (v: int)
    ensures q.milli >= 0 ==> (v - 1) * 1000 < q.milli <= v * 1000
    ensures q.milli < 0 ==> v * 1000 <= q.milli < (v + 1) * 1000
  {
    if q.milli >= 0 then (q.milli + 999) / 1000
    else -((-q.milli + 999) / 1000)
  }

  /** A whole amount is its own value. */
  lemma ValueOfUnits(n: int)
    ensures Value(Units(n)) == n
  {
  }

  /** `AsInt64()`: the amount when it is whole and fits in 64 bits. */
  function AsInt64(q: Quantity): (r: Option<int>)
    ensures r.Some? <==> q.milli % 1000 == 0 && MinInt64 <= q.milli / 1000 <= MaxInt64
    ensures r.Some? ==> r.value * 1000 == q.milli
  {
    if q.milli % 1000 == 0 && MinInt64 <= q.milli / 1000 <= MaxInt64 then Some(q.milli / 1000) else None
  }

  /** Go's integer division, which truncates toward zero. */
  function GoDiv(a: int, b: int): (r: int)
    requires b > 0
    ensures a >= 0 ==> r == a / b
    ensures a < 0 ==> r == -((-a) / b)
  {
    if a >= 0 then a / b else -((-a) / b)
  }
}
