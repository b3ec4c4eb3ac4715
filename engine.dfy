/**
 * The whole estimate: geometry and material, the waste counts, the six
 * stages, their sum as the unit cost, and the pricing of that cost.
 */
module Engine {
  import opened Wrappers
  import opened Numeric
  import opened Inputs
  import opened Geometry
  import opened Waste
  import opened Stages
  import opened PriceResolver

  /** Everything the estimate reports. */
  datatype Breakdown = Breakdown(
    baseSheets: int,
    area: real,
    materialPerUnit: real,
    dieWasteSheets: int,
    lamWasteSheets: int,
    sheeting: StageCost,
    diecut: StageCost,
    printing: PrintCost,
    lamination: LamCost,
    windowPatch: WindowCost,
    gluing: GlueCost,
    unitCost: real,
    tierFloor: real,
    sellPer1000: real,
    totals: Totals)

  /**
   * What the estimate needs of its inputs: the form's clamps, a positive
   * speed for every enabled stage that divides by its own, a stock to read
   * for every enabled stage (and the board) that reads one, a positive
   * rounding increment and a target margin below 100%.
   */
  predicate Admissible(cfg: Config, p: Params) {
    && FormClamps(p)
    && (p.sheetingOn ==> cfg.sheet.sph > 0.0)
    && (p.dieOn ==> cfg.die.sph > 0.0)
    && (p.lamOn ==> cfg.lam.sph > 0.0 && LamStockFor(cfg, p.lamKey).Some?)
    && (p.wpOn ==> cfg.wp.pph > 0.0 && WindowFilmFor(cfg, p.wpKey).Some?)
    && MaterialFor(cfg, p.matName).Some?
    && cfg.pricing.roundInc > 0.0
    && cfg.pricing.target < 1.0
  }

  /**
   * The estimate for one configuration and one form snapshot. Every part
   * comes from its calculator over the shared geometry and waste counts;
   * the unit cost is the material per unit plus exactly the six stage
   * shares; a stage switched off contributes nothing; the price per
   * thousand is the sell price of the unit cost, and the below-tier flag
   * compares the achieved markup with the quantity's floor and blocks
   * nothing.
   */
  function Estimate(cfg: Config, p: Params): (e: Breakdown)
    requires Admissible(cfg, p)
    ensures e.baseSheets == BaseSheets(p.orderQty, p.nUp)
    ensures e.area == SheetArea(p.len, p.wid)
    ensures e.materialPerUnit
         == MaterialPerUnit(e.area, MaterialFor(cfg, p.matName).value.gsm, p.price, p.priceMode, p.nUp)
    ensures e.dieWasteSheets == DieWasteSheets(cfg.dieBuckets, p.dieWasteKey)
    ensures e.lamWasteSheets == LamWasteSheets(e.baseSheets, cfg.lamMakeReadyPct)
    ensures e.sheeting == Sheeting(p.sheetingOn, cfg.sheet, e.baseSheets, e.dieWasteSheets, e.lamWasteSheets, p.orderQty)
    ensures e.diecut == DieCut(p.dieOn, cfg.die, e.baseSheets, e.dieWasteSheets, p.orderQty)
    ensures e.printing == PrintingCost(cfg, p.printOn, p.procCols, p.spotCols, p.coverage, p.coatOn, p.runRate,
                                       p.orderQty, e.baseSheets, e.area)
    ensures e.lamination == Lamination(cfg, p.lamOn, p.orderQty, p.nUp, e.baseSheets, e.lamWasteSheets, e.area,
                                       LamStockFor(cfg, p.lamKey))
    ensures e.windowPatch == WindowPatch(cfg, p.wpOn, p.orderQty, p.winW, p.winH, p.winPerPiece,
                                         WindowFilmFor(cfg, p.wpKey))
    ensures e.gluing == Gluing(cfg, p.glueType, p.orderQty)
    ensures e.unitCost == e.materialPerUnit + e.sheeting.perUnit + e.diecut.perUnit + e.printing.perUnit
                          + e.lamination.perUnit + e.windowPatch.perUnit + e.gluing.perUnit
    ensures !p.sheetingOn ==> e.sheeting == NO_COST
    ensures !p.dieOn ==> e.diecut == NO_COST
    ensures !p.printOn ==> e.printing == NO_PRINT
    ensures !p.lamOn ==> e.lamination.perUnit == 0.0 && e.lamination.total == 0.0
    ensures !p.wpOn ==> e.windowPatch.perUnit == 0.0 && e.windowPatch.total == 0.0
    ensures e.tierFloor == MinMarkup(cfg.minMarkupTiers, p.orderQty)
    ensures e.sellPer1000 == SellPrice(e.unitCost, cfg.pricing)
    ensures e.totals == OrderTotals(e.sellPer1000, e.unitCost, p.orderQty, e.tierFloor)
    ensures e.totals.belowTier <==> e.totals.markupAch < MinMarkup(cfg.minMarkupTiers, p.orderQty)
  {
    var mat := MaterialFor(cfg, p.matName).value;
    var base := BaseSheets(p.orderQty, p.nUp);
    var area := SheetArea(p.len, p.wid);
    var materialPerUnit := MaterialPerUnit(area, mat.gsm, p.price, p.priceMode, p.nUp);
    var dieWaste := DieWasteSheets(cfg.dieBuckets, p.dieWasteKey);
    var lamWaste := LamWasteSheets(base, cfg.lamMakeReadyPct);
    var sheeting := Sheeting(p.sheetingOn, cfg.sheet, base, dieWaste, lamWaste, p.orderQty);
    var diecut := DieCut(p.dieOn, cfg.die, base, dieWaste, p.orderQty);
    var printing := PrintingCost(cfg, p.printOn, p.procCols, p.spotCols, p.coverage, p.coatOn, p.runRate,
                                 p.orderQty, base, area);
    var lamination := Lamination(cfg, p.lamOn, p.orderQty, p.nUp, base, lamWaste, area, LamStockFor(cfg, p.lamKey));
    var windowPatch := WindowPatch(cfg, p.wpOn, p.orderQty, p.winW, p.winH, p.winPerPiece, WindowFilmFor(cfg, p.wpKey));
    var gluing := Gluing(cfg, p.glueType, p.orderQty);
    var unitCost := UnitCost(materialPerUnit, sheeting, diecut, printing, lamination, windowPatch, gluing);
    var tierFloor := MinMarkup(cfg.minMarkupTiers, p.orderQty);
    var sell := SellPrice(unitCost, cfg.pricing);
    Breakdown(base, area, materialPerUnit, dieWaste, lamWaste, sheeting, diecut, printing,
              lamination, windowPatch, gluing, unitCost, tierFloor, sell,
              OrderTotals(sell, unitCost, p.orderQty, tierFloor))
  }

  /** The unit cost: material per unit plus every stage's per-unit share. */
  function UnitCost(materialPerUnit: real, sheeting: StageCost, diecut: StageCost, printing: PrintCost,
                    lamination: LamCost, windowPatch: WindowCost, gluing: GlueCost): real
  {
    materialPerUnit + sheeting.perUnit + diecut.perUnit + printing.perUnit
    + lamination.perUnit + windowPatch.perUnit + gluing.perUnit
  }

  // ---------------------------------------------------------------------
  // Switching stages
  // ---------------------------------------------------------------------

  /** The five stages the form can switch; gluing has no switch. */
  datatype Stage = SheetingStage | DieStage | PrintStage | LamStage | WindowStage

  /** The form with one stage's switch set to `on`. */
  function WithStage(p: Params, s: Stage, on: bool): Params {
    match s
    case SheetingStage => p.(sheetingOn := on)
    case DieStage => p.(dieOn := on)
    case PrintStage => p.(printOn := on)
    case LamStage => p.(lamOn := on)
    case WindowStage => p.(wpOn := on)
  }

  /** One stage's per-unit share in an estimate. */
  function StagePerUnit(e: Breakdown, s: Stage): real {
    match s
    case SheetingStage => e.sheeting.perUnit
    case DieStage => e.diecut.perUnit
    case PrintStage => e.printing.perUnit
    case LamStage => e.lamination.perUnit
    case WindowStage => e.windowPatch.perUnit
  }

  /** One stage's total in an estimate. */
  function StageTotal(e: Breakdown, s: Stage): real {
    match s
    case SheetingStage => e.sheeting.total
    case DieStage => e.diecut.total
    case PrintStage => e.printing.total
    case LamStage => e.lamination.total
    case WindowStage => e.windowPatch.total
  }

  /**
   * Switching one stage off zeroes its share and total whatever else is
   * set, and lowers the unit cost by exactly the share it had when on;
   * no other stage's cost moves.
   */
  lemma ToggleStage(cfg: Config, p: Params, s: Stage)
    requires Admissible(cfg, WithStage(p, s, true))
    ensures Admissible(cfg, WithStage(p, s, false))
    ensures var on, off := Estimate(cfg, WithStage(p, s, true)), Estimate(cfg, WithStage(p, s, false));
            && StagePerUnit(off, s) == 0.0 && StageTotal(off, s) == 0.0
            && on.unitCost == off.unitCost + StagePerUnit(on, s)
            && on.materialPerUnit == off.materialPerUnit && on.gluing == off.gluing
  {
    match s
    case SheetingStage => ToggleSheeting(cfg, p);
    case DieStage => ToggleDie(cfg, p);
    case PrintStage => TogglePrint(cfg, p);
    case LamStage => ToggleLam(cfg, p);
    case WindowStage => ToggleWindow(cfg, p);
  }

  /** `ToggleStage` for the sheeting stage: every other stage is computed from the same inputs. */
  lemma ToggleSheeting(cfg: Config, p: Params)
    requires Admissible(cfg, p.(sheetingOn := true))
    ensures Admissible(cfg, p.(sheetingOn := false))
    ensures var on, off := Estimate(cfg, p.(sheetingOn := true)), Estimate(cfg, p.(sheetingOn := false));
            && off.sheeting.perUnit == 0.0 && off.sheeting.total == 0.0
            && on.unitCost == off.unitCost + on.sheeting.perUnit
            && on.materialPerUnit == off.materialPerUnit && on.gluing == off.gluing
  {
    var on, off := Estimate(cfg, p.(sheetingOn := true)), Estimate(cfg, p.(sheetingOn := false));
    assert on.diecut == off.diecut && on.printing == off.printing;
    assert on.lamination == off.lamination && on.windowPatch == off.windowPatch;
  }

  /** `ToggleStage` for the diecut stage: every other stage is computed from the same inputs. */
  lemma ToggleDie(cfg: Config, p: Params)
    requires Admissible(cfg, p.(dieOn := true))
    ensures Admissible(cfg, p.(dieOn := false))
    ensures var on, off := Estimate(cfg, p.(dieOn := true)), Estimate(cfg, p.(dieOn := false));
            && off.diecut.perUnit == 0.0 && off.diecut.total == 0.0
            && on.unitCost == off.unitCost + on.diecut.perUnit
            && on.materialPerUnit == off.materialPerUnit && on.gluing == off.gluing
  {
    var on, off := Estimate(cfg, p.(dieOn := true)), Estimate(cfg, p.(dieOn := false));
    assert on.sheeting == off.sheeting && on.printing == off.printing;
    assert on.lamination == off.lamination && on.windowPatch == off.windowPatch;
  }

  /** `ToggleStage` for the printing stage: every other stage is computed from the same inputs. */
  lemma TogglePrint(cfg: Config, p: Params)
    requires Admissible(cfg, p.(printOn := true))
    ensures Admissible(cfg, p.(printOn := false))
    ensures var on, off := Estimate(cfg, p.(printOn := true)), Estimate(cfg, p.(printOn := false));
            && off.printing.perUnit == 0.0 && off.printing.total == 0.0
            && on.unitCost == off.unitCost + on.printing.perUnit
            && on.materialPerUnit == off.materialPerUnit && on.gluing == off.gluing
  {
    var on, off := Estimate(cfg, p.(printOn := true)), Estimate(cfg, p.(printOn := false));
    assert on.sheeting == off.sheeting && on.diecut == off.diecut;
    assert on.lamination == off.lamination && on.windowPatch == off.windowPatch;
  }

  /** `ToggleStage` for the lamination stage: every other stage is computed from the same inputs. */
  lemma ToggleLam(cfg: Config, p: Params)
    requires Admissible(cfg, p.(lamOn := true))
    ensures Admissible(cfg, p.(lamOn := false))
    ensures var on, off := Estimate(cfg, p.(lamOn := true)), Estimate(cfg, p.(lamOn := false));
            && off.lamination.perUnit == 0.0 && off.lamination.total == 0.0
            && on.unitCost == off.unitCost + on.lamination.perUnit
            && on.materialPerUnit == off.materialPerUnit && on.gluing == off.gluing
  {
    var on, off := Estimate(cfg, p.(lamOn := true)), Estimate(cfg, p.(lamOn := false));
    assert on.sheeting == off.sheeting && on.diecut == off.diecut;
    assert on.printing == off.printing && on.windowPatch == off.windowPatch;
  }

  /** `ToggleStage` for the windowPatch stage: every other stage is computed from the same inputs. */
  lemma ToggleWindow(cfg: Config, p: Params)
    requires Admissible(cfg, p.(wpOn := true))
    ensures Admissible(cfg, p.(wpOn := false))
    ensures var on, off := Estimate(cfg, p.(wpOn := true)), Estimate(cfg, p.(wpOn := false));
            && off.windowPatch.perUnit == 0.0 && off.windowPatch.total == 0.0
            && on.unitCost == off.unitCost + on.windowPatch.perUnit
            && on.materialPerUnit == off.materialPerUnit && on.gluing == off.gluing
  {
    var on, off := Estimate(cfg, p.(wpOn := true)), Estimate(cfg, p.(wpOn := false));
    assert on.sheeting == off.sheeting && on.diecut == off.diecut;
    assert on.printing == off.printing && on.lamination == off.lamination;
  }

  /** The form with every switchable stage off. */
  function AllOff(p: Params): Params {
    p.(sheetingOn := false, dieOn := false, printOn := false, lamOn := false, wpOn := false)
  }

  /**
   * Gluing is charged in every estimate: with every other stage off the
   * unit cost is material plus gluing, and gluing costs the same as with
   * any switches set.
   */
  lemma GluingAlwaysCharged(cfg: Config, p: Params)
    requires Admissible(cfg, p)
    ensures Admissible(cfg, AllOff(p))
    ensures var e := Estimate(cfg, AllOff(p));
            && e.unitCost == e.materialPerUnit + e.gluing.perUnit
            && e.gluing == Estimate(cfg, p).gluing
  {
  }

  /** Sheeting cuts for die and lamination make-ready even when those stages are off. */
  lemma SheetingIgnoresDownstreamSwitches(cfg: Config, p: Params)
    requires Admissible(cfg, p)
    ensures Admissible(cfg, p.(dieOn := false, lamOn := false))
    ensures Estimate(cfg, p.(dieOn := false, lamOn := false)).sheeting == Estimate(cfg, p).sheeting
  {
  }

  /** The manual press setup hours on the form never change the estimate. */
  lemma ManualSetupHoursIgnored(cfg: Config, p: Params, hours: real)
    requires Admissible(cfg, p)
    ensures Admissible(cfg, p.(printSetupHr := hours))
    ensures Estimate(cfg, p.(printSetupHr := hours)) == Estimate(cfg, p)
  {
  }

  // ---------------------------------------------------------------------
  // Pricing guarantees
  // ---------------------------------------------------------------------

  /**
   * With whole-cent pricing settings, a quote for a positive cost achieves
   * at least the target margin.
   */
  lemma QuoteMeetsTargetMargin(cfg: Config, p: Params)
    requires Admissible(cfg, p) && CentPricing(cfg.pricing)
    requires Estimate(cfg, p).unitCost > 0.0
    ensures Estimate(cfg, p).totals.marginAch >= cfg.pricing.target
  {
    var e := Estimate(cfg, p);
    SellPriceCoversTarget(e.unitCost, cfg.pricing);
    PriceAboveRawMeetsMargin(e.sellPer1000, e.unitCost, p.orderQty, e.tierFloor, cfg.pricing.target);
  }

  /**
   * With a configured ending and whole-cent settings, every quote's price
   * per thousand ends in that ending (".95" with the built-in settings).
   */
  lemma QuoteEndsInEnding(cfg: Config, p: Params)
    requires Admissible(cfg, p) && CentPricing(cfg.pricing) && cfg.pricing.prettyEnd.Some?
    ensures Frac(Estimate(cfg, p).sellPer1000) == cfg.pricing.prettyEnd.value
  {
    SellPriceHasEnding(Estimate(cfg, p).unitCost, cfg.pricing);
  }
}
