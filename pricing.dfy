/**
 * The pricing resolver: the tiered minimum markup, the margin-to-price
 * inversion with rounding and pretty ending, and the order totals.
 */
module PriceResolver {
  import opened Wrappers
  import opened Numeric
  import opened Inputs

  // ---------------------------------------------------------------------
  // Tiered minimum markup
  // ---------------------------------------------------------------------

  /** The built-in floor used when no tiers are configured. */
  function Staircase(qty: int): (m: real)
    ensures qty < 1000 ==> m == 0.0
    ensures 1000 <= qty < 5000 ==> m == 0.70
    ensures 5000 <= qty < 10000 ==> m == 0.60
    ensures qty >= 10000 ==> m == 0.50
  {
    if qty >= 10000 then 0.50
    else if qty >= 5000 then 0.60
    else if qty >= 1000 then 0.70
    else 0.0
  }

  /** Whether tier `t` applies to an order of `qty` units. */
  predicate Qualifies(t: Tier, qty: int) {
    qty >= t.minQty
  }

  /** One step of the scan: a qualifying tier with a larger markup replaces the running floor. */
  function TierStep(floor: real, t: Tier, qty: int): real {
    if Qualifies(t, qty) && t.minMarkup > floor then t.minMarkup else floor
  }

  /**
   * The running floor after scanning `tiers` from the left, starting at 0:
   * the largest markup among the qualifying tiers, or 0 when it is larger.
   */
  function ScanTiers(tiers: seq<Tier>, qty: int): (m: real)
    ensures m >= 0.0
    ensures forall i :: 0 <= i < |tiers| && Qualifies(tiers[i], qty) ==> tiers[i].minMarkup <= m
    ensures m == 0.0 || exists i :: 0 <= i < |tiers| && Qualifies(tiers[i], qty) && tiers[i].minMarkup == m
    decreases |tiers|
  {
    if |tiers| == 0 then 0.0
    else
      var init := tiers[..|tiers| - 1];
      var prev := ScanTiers(init, qty);
      assert forall i :: 0 <= i < |init| ==> init[i] == tiers[i];
      TierStep(prev, tiers[|tiers| - 1], qty)
  }

  /** The minimum markup for `qty`: the tier scan when tiers exist, else the staircase. */
  function MinMarkup(tiers: seq<Tier>, qty: int): (m: real)
    ensures |tiers| > 0 ==> m == ScanTiers(tiers, qty)
    ensures |tiers| == 0 ==> m == Staircase(qty)
  {
    if |tiers| > 0 then ScanTiers(tiers, qty) else Staircase(qty)
  }

  /** The tier lookup as the source runs it: a loop raising a running floor. */
  method TierMinMarkup(tiers: seq<Tier>, qty: int) returns (m: real)
    ensures m == MinMarkup(tiers, qty)
  {
    if |tiers| > 0 {
      var floor := 0.0;
      for i := 0 to |tiers|
        invariant floor == ScanTiers(tiers[..i], qty)
      {
        assert tiers[..i + 1][..i] == tiers[..i];
        floor := TierStep(floor, tiers[i], qty);
      }
      assert tiers[..|tiers|] == tiers;
      return floor;
    }
    m := Staircase(qty);
  }

  /** With configured tiers, a larger order never gets a lower floor. */
  lemma ScanTiersMonotone(tiers: seq<Tier>, q1: int, q2: int)
    requires q1 <= q2
    ensures ScanTiers(tiers, q1) <= ScanTiers(tiers, q2)
  {
    var m := ScanTiers(tiers, q1);
    if m != 0.0 {
      var i :| 0 <= i < |tiers| && Qualifies(tiers[i], q1) && tiers[i].minMarkup == m;
      assert Qualifies(tiers[i], q2);
    }
  }

  /**
   * The staircase, unlike a tier list, falls as the order grows past 1000
   * units; and the same three steps written as tiers give 0.70 at 10000.
   */
  lemma StaircaseIsNotMonotone()
    ensures Staircase(1000) > Staircase(5000) > Staircase(10000)
    ensures ScanTiers([Tier(1000, 0.70), Tier(5000, 0.60), Tier(10000, 0.50)], 10000) == 0.70
  {
    var tiers := [Tier(1000, 0.70), Tier(5000, 0.60), Tier(10000, 0.50)];
    assert tiers[..2] == [Tier(1000, 0.70), Tier(5000, 0.60)];
    assert tiers[..2][..1] == [Tier(1000, 0.70)];
    assert [Tier(1000, 0.70)][..0] == [];
  }

  // ---------------------------------------------------------------------
  // Sell price per thousand
  // ---------------------------------------------------------------------

  /**
   * The unit price at which the target margin is met exactly: its margin
   * over `unitCost` is `targetPct` of it. A cost that is not positive
   * prices at 0.
   */
  function RawUnitPrice(unitCost: real, targetPct: real): (r: real)
    requires targetPct < 1.0
    ensures unitCost <= 0.0 ==> r == 0.0
    ensures unitCost > 0.0 ==> r > 0.0 && r - unitCost == targetPct * r
  {
    if unitCost > 0.0 then
      var d := 1.0 - targetPct;
      var r := unitCost / d;
      assert r * d == unitCost;
      assert r > 0.0 by {
        if r <= 0.0 { MulMonotone(r, 0.0, d); }
      }
      assert r - unitCost == r * (1.0 - d);
      r
    else 0.0
  }

  /** `x` is a whole multiple of `inc`. */
  predicate IsMultipleOf(x: real, inc: real)
    requires inc > 0.0
  {
    (x / inc).Floor as real == x / inc
  }

  /** `x` rounded up to a multiple of `inc`: a multiple of it, not below `x`, less than `inc` above. */
  function RoundUp(x: real, inc: real): (r: real)
    requires inc > 0.0
    ensures IsMultipleOf(r, inc)
    ensures x <= r < x + inc
  {
    var k := Ceil(x / inc);
    RoundUpBounds(x, inc, k);
    k as real * inc
  }

  /** A multiple of `inc` by the ceiling of `x / inc` is within `inc` above `x`. */
  lemma RoundUpBounds(x: real, inc: real, k: int)
    requires inc > 0.0 && x / inc <= k as real < x / inc + 1.0
    ensures x <= k as real * inc < x + inc
    ensures IsMultipleOf(k as real * inc, inc)
  {
    DivMul(x, inc);
    MulWithinStep(x / inc, k as real, inc, x);
    WholeTimesIsMultiple(k, inc);
  }

  /** A whole number of increments is a multiple of the increment. */
  lemma WholeTimesIsMultiple(k: int, inc: real)
    requires inc > 0.0
    ensures IsMultipleOf(k as real * inc, inc)
  {
    MulDiv(k as real, inc);
    assert (k as real).Floor == k;
  }

  /** No multiple of `inc` lies between `x` and its rounding up. */
  lemma RoundUpIsLeast(x: real, inc: real, m: real)
    requires inc > 0.0 && IsMultipleOf(m, inc) && m >= x
    ensures RoundUp(x, inc) <= m
  {
    var r := RoundUp(x, inc);
    var j := (m / inc).Floor;
    var k := (r / inc).Floor;
    MultipleIsWhole(m, inc);
    MultipleIsWhole(r, inc);
    WholeStepsWithin(k, j, inc, r, m);
  }

  /** Whole multiples `r` and `m` of `inc` with `r` less than one step above `m` have `r <= m`. */
  lemma WholeStepsWithin(k: int, j: int, inc: real, r: real, m: real)
    requires inc > 0.0 && k as real * inc == r && j as real * inc == m && r < m + inc
    ensures r <= m
  {
    var kr, jr := k as real, j as real;
    MulSuccessor(jr, inc, m);
    MulCancelLess(kr, jr + 1.0, inc);
    assert k <= j;
    MulMonotone(kr, jr, inc);
  }

  /** A multiple of `inc` is the whole number of `inc`s it holds, times `inc`. */
  lemma MultipleIsWhole(x: real, inc: real)
    requires inc > 0.0 && IsMultipleOf(x, inc)
    ensures x == (x / inc).Floor as real * inc
  {
    var q := x / inc;
    assert q * inc == x;
  }

  /** A whole number plus a fraction in [0, 1) has that whole number as its floor. */
  lemma FloorOfWholePlus(w: int, e: real)
    ensures 0.0 <= e < 1.0 ==> (w as real + e).Floor == w
  {
  }

  /** The fractional part of `x`. */
  function Frac(x: real): real {
    x - x.Floor as real
  }

  /**
   * The pretty ending: the price with fractional part `end` in
   * `[x, x + 1)` — `x`'s whole part plus `end`, or the next whole plus
   * `end` when that falls below `x`. "none" leaves `x` as it is.
   */
  function PrettyEnding(x: real, end: Option<real>): (r: real)
    ensures end.None? ==> r == x
    ensures end.Some? && 0.0 <= end.value < 1.0 ==> x <= r < x + 1.0 && Frac(r) == end.value
  {
    match end
    case None => x
    case Some(e) =>
      var whole := x.Floor;
      var cand := whole as real + e;
      if cand < x then
        FloorOfWholePlus(whole + 1, e);
        whole as real + 1.0 + e
      else
        FloorOfWholePlus(whole, e);
        cand
  }

  /** The pretty ending is the least price not below `x` that has that ending. */
  lemma PrettyEndingIsLeast(x: real, e: real, y: real)
    requires 0.0 <= e < 1.0 && y >= x && Frac(y) == e
    ensures PrettyEnding(x, Some(e)) <= y
  {
    var w, v := x.Floor, y.Floor;
    assert y == v as real + e;
    assert v >= w;
    if w as real + e < x {
      assert v > w;
    }
  }

  /** `x` is a whole number of cents. */
  predicate IsCents(x: real) {
    (x * 100.0).Floor as real == x * 100.0
  }

  /** Cents half up, on a non-negative amount. */
  function HalfUpCents(x: real): real {
    ((x * 100.0 + 0.5).Floor as real) / 100.0
  }

  /**
   * `Number(x.toFixed(2))`: the nearest whole number of cents, halves
   * away from zero; never more than half a cent from `x`.
   */
  function ToFixed2(x: real): (r: real)
    ensures IsCents(r)
    ensures -0.005 <= r - x <= 0.005
  {
    if x < 0.0 then
      HalfUpCentsBounds(-x);
      -HalfUpCents(-x)
    else
      HalfUpCentsBounds(x);
      HalfUpCents(x)
  }

  /** Cents half up is a whole number of cents within half a cent, either way. */
  lemma HalfUpCentsBounds(x: real)
    ensures IsCents(HalfUpCents(x)) && IsCents(-HalfUpCents(x))
    ensures -0.005 <= HalfUpCents(x) - x <= 0.005
  {
    var n := (x * 100.0 + 0.5).Floor;
    var r := n as real / 100.0;
    assert HalfUpCents(x) == r;
    HundredthIsCents(n);
    HundredthIsCents(-n);
    assert -r == (-n) as real / 100.0;
    assert n as real - 0.5 <= x * 100.0 < n as real + 0.5;
    assert (r - x) * 100.0 == n as real - x * 100.0;
  }

  /** A whole number of hundredths is a whole number of cents. */
  lemma HundredthIsCents(n: int)
    ensures IsCents(n as real / 100.0)
  {
    assert (n as real / 100.0) * 100.0 == n as real;
  }

  /** A whole number of cents is left as it is by `toFixed(2)`. */
  lemma ToFixed2OfCents(x: real)
    requires IsCents(x)
    ensures ToFixed2(x) == x
  {
    var n := (x * 100.0).Floor;
    assert x * 100.0 == n as real;
    if x < 0.0 {
      assert (-x * 100.0 + 0.5).Floor == -n;
    } else {
      assert (x * 100.0 + 0.5).Floor == n;
    }
  }

  /** The pretty ending is "none" or a fraction in [0, 1). */
  predicate EndingInRange(end: Option<real>) {
    end.None? || 0.0 <= end.value < 1.0
  }

  /**
   * The sell price per thousand units for a unit cost under the pricing
   * settings. With an ending in range it lies, up to the half cent of
   * `toFixed(2)`, between the margin-derived price and that price plus
   * one rounding increment plus one.
   */
  function SellPrice(unitCost: real, pr: Pricing): (p: real)
    requires pr.target < 1.0 && pr.roundInc > 0.0
    ensures EndingInRange(pr.prettyEnd) ==>
              RawUnitPrice(unitCost, pr.target) * 1000.0 - 0.005 <= p
              < RawUnitPrice(unitCost, pr.target) * 1000.0 + pr.roundInc + 1.0 + 0.005
  {
    ToFixed2(PrettyEnding(RoundUp(RawUnitPrice(unitCost, pr.target) * 1000.0, pr.roundInc), pr.prettyEnd))
  }

  /** Sums of whole cents are whole cents. */
  lemma CentsAdd(a: real, b: real)
    requires IsCents(a) && IsCents(b)
    ensures IsCents(a + b)
  {
    var na, nb := (a * 100.0).Floor, (b * 100.0).Floor;
    assert (a + b) * 100.0 == (na + nb) as real;
  }

  /** Whole units are whole cents. */
  lemma WholeIsCents(n: int)
    ensures IsCents(n as real)
  {
    assert n as real * 100.0 == (n * 100) as real;
  }

  /** A whole multiple of a whole number of cents is a whole number of cents. */
  lemma CentsMultiple(x: real, inc: real)
    requires inc > 0.0 && IsCents(inc) && IsMultipleOf(x, inc)
    ensures IsCents(x)
  {
    var k := (x / inc).Floor;
    var m := (inc * 100.0).Floor;
    assert x == k as real * inc;
    assert x * 100.0 == (k * m) as real;
  }

  /** The rounding increment and the ending are whole cents, and the ending is in [0, 1). */
  predicate CentPricing(pr: Pricing) {
    && pr.roundInc > 0.0
    && IsCents(pr.roundInc)
    && (pr.prettyEnd.None? || (0.0 <= pr.prettyEnd.value < 1.0 && IsCents(pr.prettyEnd.value)))
  }

  /**
   * When the rounding increment and the ending are whole cents, the
   * final price is exactly the pretty-ended rounding, so it is never
   * below the price that meets the target margin.
   */
  lemma SellPriceCoversTarget(unitCost: real, pr: Pricing)
    requires pr.target < 1.0 && CentPricing(pr)
    ensures SellPrice(unitCost, pr) >= RawUnitPrice(unitCost, pr.target) * 1000.0
  {
    SellPriceIsPretty(unitCost, pr);
  }

  /**
   * With a configured ending and whole-cent settings, every quoted price
   * per thousand ends in exactly that ending (".95" by default).
   */
  lemma SellPriceHasEnding(unitCost: real, pr: Pricing)
    requires pr.target < 1.0 && CentPricing(pr) && pr.prettyEnd.Some?
    ensures Frac(SellPrice(unitCost, pr)) == pr.prettyEnd.value
  {
    SellPriceIsPretty(unitCost, pr);
  }

  /** With whole-cent settings `toFixed(2)` changes nothing: the price is the pretty-ended rounding. */
  lemma SellPriceIsPretty(unitCost: real, pr: Pricing)
    requires pr.target < 1.0 && CentPricing(pr)
    ensures SellPrice(unitCost, pr)
         == PrettyEnding(RoundUp(RawUnitPrice(unitCost, pr.target) * 1000.0, pr.roundInc), pr.prettyEnd)
  {
    var rounded := RoundUp(RawUnitPrice(unitCost, pr.target) * 1000.0, pr.roundInc);
    CentsMultiple(rounded, pr.roundInc);
    var pretty := PrettyEnding(rounded, pr.prettyEnd);
    if pr.prettyEnd.Some? {
      var whole := rounded.Floor;
      WholeIsCents(whole);
      WholeIsCents(whole + 1);
      CentsAdd(whole as real, pr.prettyEnd.value);
      CentsAdd((whole + 1) as real, pr.prettyEnd.value);
      assert IsCents(pretty);
    }
    ToFixed2OfCents(pretty);
    assert SellPrice(unitCost, pr) == pretty;
  }

  /** A zero cost with the default settings sells at the bare ending, 0.95 per thousand. */
  lemma ZeroCostSellsAtEnding()
    ensures SellPrice(0.0, Pricing(0.5, Some(0.95), 0.25)) == 0.95
  {
    var pr := Pricing(0.5, Some(0.95), 0.25);
    assert RoundUp(0.0, 0.5) == 0.0;
    assert PrettyEnding(0.0, Some(0.95)) == 0.95;
    assert IsCents(0.95);
    ToFixed2OfCents(0.95);
  }

  /** A price of exactly 100.00 per thousand, rounded to 0.50, ends as 100.95. */
  lemma HundredEndsAtNinetyFive()
    ensures SellPrice(0.075, Pricing(0.5, Some(0.95), 0.25)) == 100.95
  {
    assert RawUnitPrice(0.075, 0.25) * 1000.0 == 100.0;
    assert Ceil(100.0 / 0.5) == 200;
    assert RoundUp(100.0, 0.5) == 100.0;
    FloorOfWholePlus(100, 0.95);
    assert PrettyEnding(100.0, Some(0.95)) == 100.95;
    assert (100.95 * 100.0).Floor == 10095;
    ToFixed2OfCents(100.95);
  }

  // ---------------------------------------------------------------------
  // Order totals
  // ---------------------------------------------------------------------

  /** Goods and services tax on the order. */
  const GST_PCT: real := 0.10

  datatype Totals = Totals(
    sellUnit: real,
    orderEx: real,
    orderInc: real,
    marginAch: real,
    markupAch: real,
    belowTier: bool)

  /**
   * Order totals from the price per thousand: the unit price, the order
   * value before and after GST, the margin and markup achieved over the
   * unit cost (0 where their base is not positive) and the warning flag
   * for a markup under the tier floor.
   */
  function OrderTotals(sellPer1000: real, unitCost: real, orderQty: int, tierFloor: real): (t: Totals)
    ensures t.sellUnit * 1000.0 == sellPer1000
    ensures t.orderEx == t.sellUnit * orderQty as real
    ensures t.orderInc == t.orderEx + GST_PCT * t.orderEx
    ensures t.sellUnit > 0.0 ==> t.marginAch * t.sellUnit == t.sellUnit - unitCost
    ensures t.sellUnit <= 0.0 ==> t.marginAch == 0.0
    ensures unitCost > 0.0 ==> t.markupAch * unitCost == t.sellUnit - unitCost
    ensures unitCost <= 0.0 ==> t.markupAch == 0.0
    ensures t.belowTier <==> t.markupAch < tierFloor
  {
    var sellUnit := sellPer1000 / 1000.0;
    var orderEx := sellUnit * orderQty as real;
    var orderInc := orderEx * (1.0 + GST_PCT);
    var marginAch := if sellUnit > 0.0 then (sellUnit - unitCost) / sellUnit else 0.0;
    var markupAch := if unitCost > 0.0 then (sellUnit - unitCost) / unitCost else 0.0;
    Totals(sellUnit, orderEx, orderInc, marginAch, markupAch, markupAch < tierFloor)
  }

  /** Markup and margin describe the same price: markup = margin / (1 - margin). */
  lemma MarkupFromMargin(sellPer1000: real, unitCost: real, orderQty: int, tierFloor: real)
    requires sellPer1000 > 0.0 && unitCost > 0.0
    ensures var t := OrderTotals(sellPer1000, unitCost, orderQty, tierFloor);
            t.markupAch * (1.0 - t.marginAch) == t.marginAch
  {
    var t := OrderTotals(sellPer1000, unitCost, orderQty, tierFloor);
    var s, c := t.sellUnit, unitCost;
    assert s > 0.0;
    assert t.marginAch * s == s - c;
    assert (1.0 - t.marginAch) * s == c;
    assert t.markupAch * c == s - c;
    assert t.markupAch * (1.0 - t.marginAch) * s == t.marginAch * s;
  }

  /**
   * A unit price at or above the margin-derived one achieves at least the
   * target margin.
   */
  lemma PriceAboveRawMeetsMargin(sellPer1000: real, unitCost: real, orderQty: int, tierFloor: real, target: real)
    requires target < 1.0 && unitCost > 0.0
    requires sellPer1000 >= RawUnitPrice(unitCost, target) * 1000.0
    ensures OrderTotals(sellPer1000, unitCost, orderQty, tierFloor).marginAch >= target
  {
    var t := OrderTotals(sellPer1000, unitCost, orderQty, tierFloor);
    var raw := RawUnitPrice(unitCost, target);
    var s := t.sellUnit;
    assert s >= raw > 0.0;
    assert raw * (1.0 - target) == unitCost;
    TargetShareBelowMargin(raw, s, target, unitCost);
    assert t.marginAch * s == s - unitCost;
    MulCancelLe(target, t.marginAch, s);
  }

  /** A price `s` at or above `raw`, where `raw` keeps `target` of itself over `cost`, keeps at least that share. */
  lemma TargetShareBelowMargin(raw: real, s: real, target: real, cost: real)
    requires target < 1.0 && raw <= s && raw * (1.0 - target) == cost
    ensures target * s <= s - cost
  {
    MulMonotone(raw, s, 1.0 - target);
    assert s * (1.0 - target) == s - target * s;
  }

  /** The sell price as the source computes it, reassigning the price step by step. */
  method SellPer1000(unitCost: real, pr: Pricing) returns (price: real)
    requires pr.target < 1.0 && pr.roundInc > 0.0
    ensures price == SellPrice(unitCost, pr)
  {
    var rawUnit := if unitCost > 0.0 then unitCost / (1.0 - pr.target) else 0.0;
    assert rawUnit == RawUnitPrice(unitCost, pr.target);
    var p1000 := rawUnit * 1000.0;
    p1000 := RoundUp(p1000, pr.roundInc);
    ghost var rounded := p1000;
    if pr.prettyEnd.Some? {
      var end := pr.prettyEnd.value;
      var whole := p1000.Floor;
      var cand := whole as real + end;
      if cand < p1000 {
        cand := whole as real + 1.0 + end;
      }
      p1000 := cand;
    }
    assert p1000 == PrettyEnding(rounded, pr.prettyEnd);
    price := ToFixed2(p1000);
  }
}
