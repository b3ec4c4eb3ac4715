/** Sheet geometry, paper cost and the selection of stocks from the configured lists. */
module Geometry {
  import opened Wrappers
  import opened Numeric
  import opened Inputs

  /**
   * Sheets needed for the ordered units, ignoring waste: the least
   * non-negative count whose sheets hold at least `orderQty` units when
   * `nUp` units are cut from each sheet (at least one).
   */
  function BaseSheets(orderQty: int, nUp: int): (n: int)
    ensures n >= 0
    ensures n * AtLeastOne(nUp) >= orderQty
    ensures n > 0 ==> (n - 1) * AtLeastOne(nUp) < orderQty
  {
    var per := AtLeastOne(nUp);
    var c := Ceil(orderQty as real / per as real);
    CeilDivBounds(orderQty, per);
    if c < 0 then 0 else c
  }

  /** The ceiling of `q / per` is the least count whose multiple of `per` reaches `q`. */
  lemma CeilDivBounds(q: int, per: int)
    requires per >= 1
    ensures Ceil(q as real / per as real) * per >= q
    ensures Ceil(q as real / per as real) * per < q + per
  {
    var x := q as real / per as real;
    var c := Ceil(x);
    var k := per as real;
    assert x * k == q as real;
    MulMonotone(x, c as real, k);
    MulStrictMonotone(c as real, x + 1.0, k);
    assert (x + 1.0) * k == q as real + k;
    assert (c * per) as real == c as real * k;
    assert (c * per) as real < (q + per) as real;
  }

  /** Sheet area in m² from the sheet's length and width in mm, negatives read as 0. */
  function SheetArea(len: real, wid: real): (a: real)
    ensures a >= 0.0
    ensures len >= 0.0 && wid >= 0.0 ==> a * 1000000.0 == len * wid
    ensures len < 0.0 || wid < 0.0 ==> a == 0.0
  {
    var l := if len < 0.0 then 0.0 else len;
    var w := if wid < 0.0 then 0.0 else wid;
    (l * w) / 1000000.0
  }

  /** The board price per kg: a per-tonne price is a thousand times the per-kg one. */
  function CostPerKg(price: real, mode: PriceMode): (k: real)
    ensures mode == PerTonne ==> k * 1000.0 == price
    ensures mode == PerKg ==> k == price
  {
    match mode
    case PerTonne => price / 1000.0
    case PerKg => price
  }

  /** Paper cost of one sheet: its mass in kg times the price per kg. */
  function PaperCostPerSheet(area: real, gsm: real, price: real, mode: PriceMode): real {
    (area * gsm) / 1000.0 * CostPerKg(price, mode)
  }

  /**
   * Material cost per produced unit: one sheet's paper cost shared among
   * the `nUp` units cut from it, or 0 when `nUp` is not positive.
   */
  function MaterialPerUnit(area: real, gsm: real, price: real, mode: PriceMode, nUp: int): (m: real)
    ensures nUp > 0 ==> m * nUp as real == PaperCostPerSheet(area, gsm, price, mode)
    ensures nUp <= 0 ==> m == 0.0
  {
    if nUp > 0 then PaperCostPerSheet(area, gsm, price, mode) / AtLeastOne(nUp) as real else 0.0
  }

  /** Quoting the same board per tonne or per kg (a thousandth of it) costs the same. */
  lemma PriceModesAgree(area: real, gsm: real, pricePerTonne: real, nUp: int)
    ensures MaterialPerUnit(area, gsm, pricePerTonne, PerTonne, nUp)
         == MaterialPerUnit(area, gsm, pricePerTonne / 1000.0, PerKg, nUp)
  {
  }

  /** The index of the first element that satisfies `p`, if any. */
  function FindFirst<T>(xs: seq<T>, p: T -> bool): (r: Option<nat>)
    ensures r.Some? ==> r.value < |xs| && p(xs[r.value])
    ensures r.Some? ==> forall j :: 0 <= j < r.value ==> !p(xs[j])
    ensures r.None? ==> forall j :: 0 <= j < |xs| ==> !p(xs[j])
  {
    if |xs| == 0 then None
    else if p(xs[0]) then Some(0)
    else match FindFirst(xs[1..], p)
      case None => None
      case Some(i) => Some(i + 1)
  }

  /**
   * `xs.find(p) ?? xs[fallback]`: the first matching element, else the
   * element at `fallback`; `None` when neither exists (the source then
   * reads a field of `undefined`).
   */
  function Select<T>(xs: seq<T>, p: T -> bool, fallback: nat): (r: Option<T>)
    ensures (exists i :: 0 <= i < |xs| && p(xs[i])) ==>
              exists i :: 0 <= i < |xs| && r == Some(xs[i]) && p(xs[i]) && forall j :: 0 <= j < i ==> !p(xs[j])
    ensures (forall i :: 0 <= i < |xs| ==> !p(xs[i])) ==>
              r == if fallback < |xs| then Some(xs[fallback]) else None
  {
    match FindFirst(xs, p)
    case Some(i) => Some(xs[i])
    case None => if fallback < |xs| then Some(xs[fallback]) else None
  }

  /** The first board with the chosen name, falling back to the second configured one. */
  function MaterialFor(cfg: Config, name: string): (r: Option<Material>)
    ensures (exists i :: 0 <= i < |cfg.materials| && cfg.materials[i].name == name) ==>
              exists i :: 0 <= i < |cfg.materials| && r == Some(cfg.materials[i]) && cfg.materials[i].name == name
                          && forall j :: 0 <= j < i ==> cfg.materials[j].name != name
    ensures (forall i :: 0 <= i < |cfg.materials| ==> cfg.materials[i].name != name) ==>
              r == if 1 < |cfg.materials| then Some(cfg.materials[1]) else None
  {
    Select(cfg.materials, (m: Material) => m.name == name, 1)
  }

  /** The first lamination stock with the chosen key, falling back to the first one. */
  function LamStockFor(cfg: Config, key: string): (r: Option<LamStock>)
    ensures (exists i :: 0 <= i < |cfg.lamStocks| && cfg.lamStocks[i].key == key) ==>
              exists i :: 0 <= i < |cfg.lamStocks| && r == Some(cfg.lamStocks[i]) && cfg.lamStocks[i].key == key
                          && forall j :: 0 <= j < i ==> cfg.lamStocks[j].key != key
    ensures (forall i :: 0 <= i < |cfg.lamStocks| ==> cfg.lamStocks[i].key != key) ==>
              r == if 0 < |cfg.lamStocks| then Some(cfg.lamStocks[0]) else None
  {
    Select(cfg.lamStocks, (s: LamStock) => s.key == key, 0)
  }

  /** The first window film with the chosen key, falling back to the first one. */
  function WindowFilmFor(cfg: Config, key: string): (r: Option<WindowFilm>)
    ensures (exists i :: 0 <= i < |cfg.windowFilms| && cfg.windowFilms[i].key == key) ==>
              exists i :: 0 <= i < |cfg.windowFilms| && r == Some(cfg.windowFilms[i]) && cfg.windowFilms[i].key == key
                          && forall j :: 0 <= j < i ==> cfg.windowFilms[j].key != key
    ensures (forall i :: 0 <= i < |cfg.windowFilms| ==> cfg.windowFilms[i].key != key) ==>
              r == if 0 < |cfg.windowFilms| then Some(cfg.windowFilms[0]) else None
  {
    Select(cfg.windowFilms, (f: WindowFilm) => f.key == key, 0)
  }
}
