/**
 * The six stage calculators. Each one but gluing is switched by its flag
 * in the form and costs nothing when switched off; each spreads its total
 * over the ordered units.
 */
module Stages {
  import opened Wrappers
  import opened Numeric
  import opened Inputs
  import opened Waste

  datatype StageCost = StageCost(perUnit: real, total: real)

  const NO_COST: StageCost := StageCost(0.0, 0.0)

  datatype PrintCost = PrintCost(
    perUnit: real,
    total: real,
    hours: real,
    inkCost: real,
    coatCost: real,
    mrSheets: int,
    printSheets: int)

  const NO_PRINT: PrintCost := PrintCost(0.0, 0.0, 0.0, 0.0, 0.0, 0, 0)

  datatype LamCost = LamCost(perUnit: real, total: real, filmPerUnit: real)

  datatype WindowCost = WindowCost(perUnit: real, total: real, matPerUnit: real)

  datatype GlueCost = GlueCost(perUnit: real, total: real, mr: int)

  /** Gluing setup is billed at one operator's fixed hourly rate. */
  const GLUE_SETUP_RATE: real := 35.0

  /** A stage total shared among the ordered units (at least one). */
  function PerUnit(total: real, orderQty: int): (u: real)
    ensures u * AtLeastOne(orderQty) as real == total
  {
    total / AtLeastOne(orderQty) as real
  }

  // ---------------------------------------------------------------------
  // Sheeting and die-cutting
  // ---------------------------------------------------------------------

  /** Setup plus cutting cost of `sheets` sheets on a sheeter or die-cutter. */
  function MachineTotal(r: MachineRates, sheets: int): real
    requires r.sph > 0.0
  {
    r.setupHr * r.setupRate + sheets as real * (r.runRate / r.sph)
  }

  /**
   * Sheeting cuts the base sheets plus the die and lamination make-ready,
   * whether or not those two stages are switched on.
   */
  function Sheeting(on: bool, r: MachineRates, baseSheets: int, dieWaste: int, lamWaste: int, orderQty: int): (c: StageCost)
    requires on ==> r.sph > 0.0
    ensures !on ==> c == NO_COST
    ensures on ==> c.total == MachineTotal(r, SheetingRunSheets(baseSheets, dieWaste, lamWaste))
    ensures c.perUnit * AtLeastOne(orderQty) as real == c.total
  {
    if !on then NO_COST
    else
      var total := MachineTotal(r, SheetingRunSheets(baseSheets, dieWaste, lamWaste));
      StageCost(PerUnit(total, orderQty), total)
  }

  /** Die-cutting runs the base sheets plus its own bucket's make-ready. */
  function DieCut(on: bool, r: MachineRates, baseSheets: int, dieWaste: int, orderQty: int): (c: StageCost)
    requires on ==> r.sph > 0.0
    ensures !on ==> c == NO_COST
    ensures on ==> c.total == MachineTotal(r, DieRunSheets(baseSheets, dieWaste))
    ensures c.perUnit * AtLeastOne(orderQty) as real == c.total
  {
    if !on then NO_COST
    else
      var total := MachineTotal(r, DieRunSheets(baseSheets, dieWaste));
      StageCost(PerUnit(total, orderQty), total)
  }

  /** One more sheet through a machine costs exactly its per-sheet run rate. */
  lemma MachineCostPerSheet(r: MachineRates, sheets: int)
    requires r.sph > 0.0
    ensures MachineTotal(r, sheets + 1) == MachineTotal(r, sheets) + r.runRate / r.sph
  {
  }

  // ---------------------------------------------------------------------
  // Printing
  // ---------------------------------------------------------------------

  /** Ink units on press: process plus spot colours, negatives read as 0. */
  function Inks(procCols: int, spotCols: int): (n: int)
    ensures n >= 0
    ensures procCols >= 0 && spotCols >= 0 ==> n == procCols + spotCols
    ensures procCols < 0 && spotCols >= 0 ==> n == spotCols
    ensures procCols >= 0 && spotCols < 0 ==> n == procCols
    ensures procCols < 0 && spotCols < 0 ==> n == 0
  {
    (if procCols < 0 then 0 else procCols) + (if spotCols < 0 then 0 else spotCols)
  }

  /** Press setup hours, always derived from the ink units: one hour plus a quarter per unit. */
  function PrintSetupHours(inks: int): real {
    1.0 + 0.25 * inks as real
  }

  /** Setup starts at one hour and each ink unit adds a quarter: four process colours take two hours. */
  lemma PrintSetupHoursPerInk(inks: int)
    ensures PrintSetupHours(0) == 1.0
    ensures PrintSetupHours(inks + 1) == PrintSetupHours(inks) + 0.25
    ensures PrintSetupHours(4) == 2.0
  {
  }

  /** Press hours: setup hours plus the sheets run at the press speed (5000 per hour when unset or zero). */
  function PressHours(inks: int, sheets: int, sph: Option<real>): real {
    PrintSetupHours(inks) + sheets as real / OrReal(sph, 5000.0)
  }

  /** Press labour: press hours at the run rate (65 per hour when zero). */
  function PressLabour(hours: real, runRate: real): real {
    hours * OrReal(Some(runRate), 65.0)
  }

  /** Press make-ready sheets: base, per ink unit, and the coating adder when coating. */
  function PrintMakeReadySheets(mr: PrintMakeReady, inks: int, coatOn: bool): int {
    OrInt(mr.baseSheets, 0) + OrInt(mr.perColourSheets, 0) * inks
      + (if coatOn then OrInt(mr.coatingAdderSheets, 0) else 0)
  }

  /**
   * Each ink unit adds the per-colour make-ready, and coating adds its
   * adder, to the base make-ready.
   */
  lemma PrintMakeReadyParts(mr: PrintMakeReady, inks: int, coatOn: bool)
    ensures PrintMakeReadySheets(mr, 0, false) == OrInt(mr.baseSheets, 0)
    ensures PrintMakeReadySheets(mr, inks + 1, coatOn)
         == PrintMakeReadySheets(mr, inks, coatOn) + OrInt(mr.perColourSheets, 0)
    ensures PrintMakeReadySheets(mr, inks, true)
         == PrintMakeReadySheets(mr, inks, false) + OrInt(mr.coatingAdderSheets, 0)
  {
  }

  /** Ink coverage in percent, clamped to [0, 100]. */
  function ClampCoverage(coverage: real): (c: real)
    ensures 0.0 <= c <= 100.0
    ensures 0.0 <= coverage <= 100.0 ==> c == coverage
    ensures coverage < 0.0 ==> c == 0.0
    ensures coverage > 100.0 ==> c == 100.0
  {
    if coverage < 0.0 then 0.0 else if coverage > 100.0 then 100.0 else coverage
  }

  /** Ink in kg per sheet for one ink unit at the (clamped) coverage. */
  function InkKgPerSheet(area: real, ink: InkSpec, coverage: real): real {
    area * (ink.gPerM2 / 1000.0) * (ClampCoverage(coverage) / 100.0)
  }

  /** Ink cost of a run: kg per sheet per unit, times sheets, times ink units, times price per kg. */
  function InkCost(area: real, ink: InkSpec, coverage: real, sheets: int, inks: int): real {
    sheets as real * InkKgPerSheet(area, ink, coverage) * inks as real * OrReal(ink.pricePerKg, 0.0)
  }

  /** Coating in kg per sheet. */
  function CoatKgPerSheet(area: real, coating: CoatingSpec): real {
    area * (coating.gPerM2 / 1000.0)
  }

  /** Coating material cost of a run. */
  function CoatCost(area: real, coating: CoatingSpec, sheets: int): real {
    sheets as real * CoatKgPerSheet(area, coating) * OrReal(coating.pricePerKg, 0.0)
  }

  /** Coating labour: press hours at the coating rate, only when coating and that rate is positive. */
  function CoatLabour(coatOn: bool, coat: CoatingSpec, hours: real): (l: real)
    ensures coatOn && coat.rate.Some? && coat.rate.value > 0.0 ==> l == hours * coat.rate.value
    ensures !(coatOn && coat.rate.Some? && coat.rate.value > 0.0) ==> l == 0.0
  {
    if coatOn && coat.rate.Some? && coat.rate.value > 0.0 then hours * coat.rate.value else 0.0
  }

  /**
   * The printing stage. Setup hours come from the ink units alone; the
   * labour rate and the press speed fall back to 65 and 5000 when zero.
   */
  function PrintingCost(cfg: Config, on: bool, procCols: int, spotCols: int, coverage: real, coatOn: bool,
                        runRate: real, orderQty: int, baseSheets: int, area: real): (c: PrintCost)
    ensures !on ==> c == NO_PRINT
    ensures on ==>
              var inks := Inks(procCols, spotCols);
              && c.mrSheets == PrintMakeReadySheets(cfg.printMR, inks, coatOn)
              && c.printSheets == baseSheets + c.mrSheets
              && c.hours == PressHours(inks, c.printSheets, cfg.printRates.sph)
              && c.inkCost == InkCost(area, cfg.ink, coverage, c.printSheets, inks)
              && (coatOn ==> c.coatCost == CoatCost(area, cfg.coating, c.printSheets))
              && c.total == PressLabour(c.hours, runRate) + c.inkCost + c.coatCost
                            + CoatLabour(coatOn, cfg.coating, c.hours)
    ensures !coatOn ==> c.coatCost == 0.0
    ensures c.perUnit * AtLeastOne(orderQty) as real == c.total
  {
    if !on then NO_PRINT
    else
      var inks := Inks(procCols, spotCols);
      var mrSheets := PrintMakeReadySheets(cfg.printMR, inks, coatOn);
      var sheets := baseSheets + mrSheets;
      var hours := PressHours(inks, sheets, cfg.printRates.sph);
      var labour := PressLabour(hours, runRate);
      var inkCost := InkCost(area, cfg.ink, coverage, sheets, inks);
      var coatCost := if coatOn then CoatCost(area, cfg.coating, sheets) else 0.0;
      var total := labour + inkCost + coatCost + CoatLabour(coatOn, cfg.coating, hours);
      PrintCost(PerUnit(total, orderQty), total, hours, inkCost, coatCost, mrSheets, sheets)
  }

  /**
   * The printing stage computed as the source does it: coating cost and
   * coating labour start at zero and are overwritten when coating is on.
   */
  method Printing(cfg: Config, on: bool, procCols: int, spotCols: int, coverage: real, coatOn: bool,
                  runRate: real, orderQty: int, baseSheets: int, area: real) returns (c: PrintCost)
    ensures c == PrintingCost(cfg, on, procCols, spotCols, coverage, coatOn, runRate, orderQty, baseSheets, area)
  {
    if !on {
      return NO_PRINT;
    }
    var inks := Inks(procCols, spotCols);
    var mrSheets := PrintMakeReadySheets(cfg.printMR, inks, coatOn);
    var sheets := baseSheets + mrSheets;
    var hours := PressHours(inks, sheets, cfg.printRates.sph);
    var labour := PressLabour(hours, runRate);
    var inkCost := InkCost(area, cfg.ink, coverage, sheets, inks);
    var coatCost := 0.0;
    var coatLabour := 0.0;
    if coatOn {
      coatCost := CoatCost(area, cfg.coating, sheets);
      if cfg.coating.rate.Some? && cfg.coating.rate.value > 0.0 {
        coatLabour := hours * cfg.coating.rate.value;
      }
    }
    var total := labour + inkCost + coatCost + coatLabour;
    c := PrintCost(PerUnit(total, orderQty), total, hours, inkCost, coatCost, mrSheets, sheets);
  }

  /** Coverage outside [0, 100] prices exactly as its clamped value. */
  lemma CoverageIsClamped(cfg: Config, on: bool, procCols: int, spotCols: int, coverage: real, coatOn: bool,
                          runRate: real, orderQty: int, baseSheets: int, area: real)
    ensures PrintingCost(cfg, on, procCols, spotCols, coverage, coatOn, runRate, orderQty, baseSheets, area)
         == PrintingCost(cfg, on, procCols, spotCols, ClampCoverage(coverage), coatOn, runRate, orderQty, baseSheets, area)
  {
  }

  // ---------------------------------------------------------------------
  // Lamination and window patching
  // ---------------------------------------------------------------------

  /**
   * Lamination: setup and run at one hourly rate, plus film for every
   * sheet run; film weight is the configured `lamFilmGsm` for any stock.
   */
  function Lamination(cfg: Config, on: bool, orderQty: int, nUp: int, baseSheets: int, lamWaste: int, area: real,
                      stock: Option<LamStock>): (c: LamCost)
    requires on ==> cfg.lam.sph > 0.0 && stock.Some?
    ensures !on ==> c == LamCost(0.0, 0.0, 0.0)
    ensures on ==>
              var sheets := LamRunSheets(baseSheets, lamWaste);
              var filmPerSheet := (area * cfg.lamFilmGsm) / 1000.0 * (stock.value.pricePerTonne / 1000.0);
              && c.total == cfg.lam.setupHr * cfg.lam.rate + (sheets as real / cfg.lam.sph) * cfg.lam.rate
                            + sheets as real * filmPerSheet
              && c.filmPerUnit * AtLeastOne(nUp) as real == filmPerSheet
    ensures c.perUnit * AtLeastOne(orderQty) as real == c.total
  {
    if !on then LamCost(0.0, 0.0, 0.0)
    else
      var sheets := LamRunSheets(baseSheets, lamWaste);
      var filmKgPerSheet := (area * cfg.lamFilmGsm) / 1000.0;
      var filmCostPerKg := stock.value.pricePerTonne / 1000.0;
      var filmCostTotal := sheets as real * filmKgPerSheet * filmCostPerKg;
      var setup := cfg.lam.setupHr * cfg.lam.rate;
      var run := (sheets as real / cfg.lam.sph) * cfg.lam.rate;
      var total := setup + run + filmCostTotal;
      LamCost(PerUnit(total, orderQty), total, (filmKgPerSheet * filmCostPerKg) / AtLeastOne(nUp) as real)
  }

  /** Window area in m² from its width and height in mm, negatives read as 0. */
  function WindowArea(winW: real, winH: real): (a: real)
    ensures a >= 0.0
    ensures winW >= 0.0 && winH >= 0.0 ==> a * 1000000.0 == winW * winH
    ensures winW < 0.0 || winH < 0.0 ==> a == 0.0
  {
    ((if winW < 0.0 then 0.0 else winW) * (if winH < 0.0 then 0.0 else winH)) / 1000000.0
  }

  /**
   * Window patching: setup and run at one hourly rate over the pieces
   * including make-ready, plus film for every window on every piece.
   */
  function WindowPatch(cfg: Config, on: bool, orderQty: int, winW: real, winH: real, winPerPiece: int,
                       film: Option<WindowFilm>): (c: WindowCost)
    requires on ==> cfg.wp.pph > 0.0 && film.Some?
    ensures !on ==> c == WindowCost(0.0, 0.0, 0.0)
    ensures on ==>
              var pieces := WindowPieces(orderQty, cfg.wpMakeReadyPct);
              && c.matPerUnit == (WindowArea(winW, winH) * film.value.gsm / 1000.0) * winPerPiece as real
                                 * (film.value.pricePerTonne / 1000.0)
              && c.total == cfg.wp.setupHr * cfg.wp.rate + (pieces as real / cfg.wp.pph) * cfg.wp.rate
                            + pieces as real * c.matPerUnit
    ensures c.perUnit * AtLeastOne(orderQty) as real == c.total
  {
    if !on then WindowCost(0.0, 0.0, 0.0)
    else
      var pieces := WindowPieces(orderQty, cfg.wpMakeReadyPct);
      var filmKgPerPiece := (WindowArea(winW, winH) * film.value.gsm / 1000.0) * winPerPiece as real;
      var matCostPerKg := film.value.pricePerTonne / 1000.0;
      var matTotal := pieces as real * filmKgPerPiece * matCostPerKg;
      var setup := cfg.wp.setupHr * cfg.wp.rate;
      var run := (pieces as real / cfg.wp.pph) * cfg.wp.rate;
      var total := setup + run + matTotal;
      WindowCost(PerUnit(total, orderQty), total, filmKgPerPiece * matCostPerKg)
  }

  // ---------------------------------------------------------------------
  // Gluing
  // ---------------------------------------------------------------------

  /**
   * Gluing has no switch. Setup hours come from the type's profile and
   * are billed at the fixed 35 an hour; the run pays both operators for
   * the ordered pieces plus make-ready.
   */
  function Gluing(cfg: Config, glueType: string, orderQty: int): (c: GlueCost)
    ensures var g := GlueProfileFor(cfg.glueSetups, glueType);
            && c.mr == GlueMakeReady(orderQty, GlueMakeReadyPct(g), GlueMakeReadyFixed(g))
            && c.total == g.setupHr * GLUE_SETUP_RATE
                          + (orderQty + c.mr) as real / OrReal(cfg.glue.sph, 2000.0)
                            * (OrReal(cfg.glue.op1, 35.0) + OrReal(cfg.glue.op2, 45.0))
    ensures c.perUnit * AtLeastOne(orderQty) as real == c.total
  {
    var g := GlueProfileFor(cfg.glueSetups, glueType);
    var mr := GlueMakeReady(orderQty, GlueMakeReadyPct(g), GlueMakeReadyFixed(g));
    var pieces := orderQty + mr;
    var setup := g.setupHr * GLUE_SETUP_RATE;
    var run := (pieces as real / OrReal(cfg.glue.sph, 2000.0)) * (OrReal(cfg.glue.op1, 35.0) + OrReal(cfg.glue.op2, 45.0));
    var total := setup + run;
    GlueCost(PerUnit(total, orderQty), total, mr)
  }
}
