/**
 * What the costing engine reads: the configuration document (every section
 * optional, each absent section replaced as a whole by its built-in default)
 * and the snapshot of the order form.
 */
module Inputs {
  import opened Wrappers

  // ---------------------------------------------------------------------
  // Configuration entities
  // ---------------------------------------------------------------------

  /** A board stock; `pricePerTonne` is also the form's initial price. */
  datatype Material = Material(name: string, gsm: real, pricePerTonne: real)

  /** A lamination film stock; the film weight is the shared `lamFilmGsm`. */
  datatype LamStock = LamStock(key: string, name: string, pricePerTonne: real)

  /** A window-patch film. */
  datatype WindowFilm = WindowFilm(key: string, name: string, gsm: real, pricePerTonne: real)

  /** Sheeter and die-cutter rates: setup hours and rate, sheets per hour, run rate per hour. */
  datatype MachineRates = MachineRates(setupHr: real, setupRate: real, sph: real, runRate: real)

  /** Laminator rates: one hourly rate for both setup and run. */
  datatype LamRates = LamRates(setupHr: real, rate: real, sph: real)

  /** Window-patcher rates, in pieces per hour. */
  datatype WindowRates = WindowRates(setupHr: real, rate: real, pph: real)

  /** Gluer rates; each field falls back on its own (`||`) where it is read. */
  datatype GlueRates = GlueRates(sph: Option<real>, op1: Option<real>, op2: Option<real>)

  /** Press rates; only `sph` is read by the engine (`||` fallback 5000). */
  datatype PrintRates = PrintRates(sph: Option<real>, combinedRate: Option<real>, setupHr: Option<real>)

  /** Ink: price per kg (`||` fallback 0) and grams per m² at full coverage. */
  datatype InkSpec = InkSpec(pricePerKg: Option<real>, gPerM2: real)

  /** Coating: as ink, plus an optional extra labour rate per press hour. */
  datatype CoatingSpec = CoatingSpec(pricePerKg: Option<real>, gPerM2: real, rate: Option<real>)

  /**
   * A gluing setup profile. The make-ready percentage is read from the
   * snake-case key first and from the camel-case key second (the built-in
   * fallback profile only has the camel-case one).
   */
  datatype GlueProfile = GlueProfile(
    setupHr: real,
    mrPiecesPct: Option<real>,
    mrPiecesPctCamel: Option<real>,
    mrFixed: Option<real>)

  /** Press make-ready sheets; each field falls back to 0 (`||`) where it is read. */
  datatype PrintMakeReady = PrintMakeReady(
    baseSheets: Option<int>,
    perColourSheets: Option<int>,
    coatingAdderSheets: Option<int>,
    varnishAdderSheets: Option<int>)

  /** A minimum-markup tier: from `minQty` units on, markup should be at least `minMarkup`. */
  datatype Tier = Tier(minQty: int, minMarkup: real)

  /**
   * The pricing section as supplied. `prettyEnd` is the pretty ending:
   * absent (`None`) means the default ending 0.95, `Some(None)` is the
   * string "none", `Some(Some(e))` is the number `e`.
   */
  datatype PricingSection = PricingSection(
    roundInc: Option<real>,
    prettyEnd: Option<Option<real>>,
    defaultTarget: Option<real>)

  /** The configuration document as fetched: every section may be absent. */
  datatype RawConfig = RawConfig(
    materials: Option<seq<Material>>,
    lamStocks: Option<seq<LamStock>>,
    lamFilmGsm: Option<real>,
    windowFilms: Option<seq<WindowFilm>>,
    sheet: Option<MachineRates>,
    die: Option<MachineRates>,
    lam: Option<LamRates>,
    wp: Option<WindowRates>,
    glue: Option<GlueRates>,
    printRates: Option<PrintRates>,
    ink: Option<InkSpec>,
    coating: Option<CoatingSpec>,
    dieBuckets: Option<map<string, int>>,
    lamMakeReadyPct: Option<real>,
    wpMakeReadyPct: Option<real>,
    glueSetups: Option<map<string, GlueProfile>>,
    printMR: Option<PrintMakeReady>,
    minMarkupTiers: Option<seq<Tier>>,
    pricing: Option<PricingSection>)

  /** Resolved pricing settings; `prettyEnd == None` is the ending "none". */
  datatype Pricing = Pricing(roundInc: real, prettyEnd: Option<real>, target: real)

  /** The configuration with every default applied. An empty tier list selects the built-in staircase. */
  datatype Config = Config(
    materials: seq<Material>,
    lamStocks: seq<LamStock>,
    lamFilmGsm: real,
    windowFilms: seq<WindowFilm>,
    sheet: MachineRates,
    die: MachineRates,
    lam: LamRates,
    wp: WindowRates,
    glue: GlueRates,
    printRates: PrintRates,
    ink: InkSpec,
    coating: CoatingSpec,
    dieBuckets: map<string, int>,
    lamMakeReadyPct: real,
    wpMakeReadyPct: real,
    glueSetups: map<string, GlueProfile>,
    printMR: PrintMakeReady,
    minMarkupTiers: seq<Tier>,
    pricing: Pricing)

  // ---------------------------------------------------------------------
  // Built-in defaults
  // ---------------------------------------------------------------------

  const DEFAULT_MATERIALS: seq<Material> := [
    Material("MILKBOARD", 360.0, 1350.0),
    Material("FBB", 330.0, 1350.0),
    Material("KRAFT", 325.0, 1600.0),
    Material("2S KRAFT", 337.0, 1100.0)]
  const DEFAULT_LAM_STOCKS: seq<LamStock> := [
    LamStock("gloss", "Gloss", 5250.0),
    LamStock("matte", "Matte", 5500.0)]
  const DEFAULT_LAM_FILM_GSM: real := 24.0
  const DEFAULT_WINDOW_FILMS: seq<WindowFilm> := [
    WindowFilm("pet", "PET", 103.0, 4150.0),
    WindowFilm("ca", "Cellulose Acetate", 97.0, 28500.0)]
  const DEFAULT_SHEET: MachineRates := MachineRates(1.5, 40.0, 2000.0, 35.0)
  const DEFAULT_DIE: MachineRates := MachineRates(1.5, 40.0, 1100.0, 40.0)
  const DEFAULT_LAM: LamRates := LamRates(1.5, 35.0, 1000.0)
  const DEFAULT_WP: WindowRates := WindowRates(1.5, 35.0, 800.0)
  const DEFAULT_GLUE: GlueRates := GlueRates(Some(2000.0), Some(35.0), Some(45.0))
  const DEFAULT_PRINT: PrintRates := PrintRates(Some(5000.0), Some(65.0), Some(1.0))
  const DEFAULT_INK: InkSpec := InkSpec(Some(0.0), 1.5)
  const DEFAULT_COATING: CoatingSpec := CoatingSpec(Some(0.0), 2.0, Some(0.0))
  const DEFAULT_DIE_BUCKETS: map<string, int> :=
    map["simple" := 20, "standard" := 50, "intricate" := 75, "very" := 100]
  const DEFAULT_LAM_MR_PCT: real := 0.02
  const DEFAULT_WP_MR_PCT: real := 0.015
  const DEFAULT_GLUE_SETUPS: map<string, GlueProfile> := map[
    "sl" := GlueProfile(3.0, Some(0.03), None, Some(0.0)),
    "cl" := GlueProfile(6.0, Some(0.06), None, Some(0.0)),
    "c4" := GlueProfile(4.0, Some(0.0), None, Some(500.0)),
    "c6" := GlueProfile(5.0, Some(0.0), None, Some(750.0))]
  const DEFAULT_PRINT_MR: PrintMakeReady := PrintMakeReady(Some(50), Some(25), Some(20), Some(10))
  const DEFAULT_ROUND_INC: real := 0.5
  const DEFAULT_PRETTY_END: Option<real> := Some(0.95)
  const DEFAULT_TARGET: real := 0.25
  const DEFAULT_PRICING: PricingSection :=
    PricingSection(Some(DEFAULT_ROUND_INC), Some(DEFAULT_PRETTY_END), Some(DEFAULT_TARGET))

  /** The configuration used before (or without) a fetched document. */
  const DEFAULTS: Config := Config(
    DEFAULT_MATERIALS, DEFAULT_LAM_STOCKS, DEFAULT_LAM_FILM_GSM, DEFAULT_WINDOW_FILMS,
    DEFAULT_SHEET, DEFAULT_DIE, DEFAULT_LAM, DEFAULT_WP, DEFAULT_GLUE, DEFAULT_PRINT,
    DEFAULT_INK, DEFAULT_COATING, DEFAULT_DIE_BUCKETS, DEFAULT_LAM_MR_PCT, DEFAULT_WP_MR_PCT,
    DEFAULT_GLUE_SETUPS, DEFAULT_PRINT_MR, [],
    Pricing(DEFAULT_ROUND_INC, DEFAULT_PRETTY_END, DEFAULT_TARGET))

  /** No document at all: the state before the fetch completes, or after it fails. */
  const UNCONFIGURED: RawConfig := RawConfig(
    None, None, None, None, None, None, None, None, None, None,
    None, None, None, None, None, None, None, None, None)

  // ---------------------------------------------------------------------
  // Defaulting
  // ---------------------------------------------------------------------

  /** A resolved setting is the supplied one when present, and the built-in one when absent. */
  ghost predicate SuppliedOrDefault<T>(supplied: Option<T>, resolved: T, default: T) {
    && (supplied.Some? ==> resolved == supplied.value)
    && (supplied.None? ==> resolved == default)
  }

  /**
   * Applies the defaults section by section: a supplied section replaces
   * the default one whole, field by field nothing is merged, and each
   * absent section takes its own default whatever else is supplied. The
   * pricing section is read field by field, against the built-in pricing
   * section when it is absent.
   */
  function Resolve(raw: RawConfig): (c: Config)
    ensures SuppliedOrDefault(raw.materials, c.materials, DEFAULT_MATERIALS)
    ensures SuppliedOrDefault(raw.lamStocks, c.lamStocks, DEFAULT_LAM_STOCKS)
    ensures SuppliedOrDefault(raw.lamFilmGsm, c.lamFilmGsm, DEFAULT_LAM_FILM_GSM)
    ensures SuppliedOrDefault(raw.windowFilms, c.windowFilms, DEFAULT_WINDOW_FILMS)
    ensures SuppliedOrDefault(raw.sheet, c.sheet, DEFAULT_SHEET)
    ensures SuppliedOrDefault(raw.die, c.die, DEFAULT_DIE)
    ensures SuppliedOrDefault(raw.lam, c.lam, DEFAULT_LAM)
    ensures SuppliedOrDefault(raw.wp, c.wp, DEFAULT_WP)
    ensures SuppliedOrDefault(raw.glue, c.glue, DEFAULT_GLUE)
    ensures SuppliedOrDefault(raw.printRates, c.printRates, DEFAULT_PRINT)
    ensures SuppliedOrDefault(raw.ink, c.ink, DEFAULT_INK)
    ensures SuppliedOrDefault(raw.coating, c.coating, DEFAULT_COATING)
    ensures SuppliedOrDefault(raw.dieBuckets, c.dieBuckets, DEFAULT_DIE_BUCKETS)
    ensures SuppliedOrDefault(raw.lamMakeReadyPct, c.lamMakeReadyPct, DEFAULT_LAM_MR_PCT)
    ensures SuppliedOrDefault(raw.wpMakeReadyPct, c.wpMakeReadyPct, DEFAULT_WP_MR_PCT)
    ensures SuppliedOrDefault(raw.glueSetups, c.glueSetups, DEFAULT_GLUE_SETUPS)
    ensures SuppliedOrDefault(raw.printMR, c.printMR, DEFAULT_PRINT_MR)
    ensures SuppliedOrDefault(raw.minMarkupTiers, c.minMarkupTiers, [])
    ensures raw.pricing.None? ==> c.pricing == Pricing(DEFAULT_ROUND_INC, DEFAULT_PRETTY_END, DEFAULT_TARGET)
    ensures raw.pricing.Some? ==>
              && SuppliedOrDefault(raw.pricing.value.roundInc, c.pricing.roundInc, DEFAULT_ROUND_INC)
              && SuppliedOrDefault(raw.pricing.value.prettyEnd, c.pricing.prettyEnd, DEFAULT_PRETTY_END)
              && SuppliedOrDefault(raw.pricing.value.defaultTarget, c.pricing.target, DEFAULT_TARGET)
  {
    var pr := raw.pricing.GetOr(DEFAULT_PRICING);
    Config(
      raw.materials.GetOr(DEFAULT_MATERIALS),
      raw.lamStocks.GetOr(DEFAULT_LAM_STOCKS),
      raw.lamFilmGsm.GetOr(DEFAULT_LAM_FILM_GSM),
      raw.windowFilms.GetOr(DEFAULT_WINDOW_FILMS),
      raw.sheet.GetOr(DEFAULT_SHEET),
      raw.die.GetOr(DEFAULT_DIE),
      raw.lam.GetOr(DEFAULT_LAM),
      raw.wp.GetOr(DEFAULT_WP),
      raw.glue.GetOr(DEFAULT_GLUE),
      raw.printRates.GetOr(DEFAULT_PRINT),
      raw.ink.GetOr(DEFAULT_INK),
      raw.coating.GetOr(DEFAULT_COATING),
      raw.dieBuckets.GetOr(DEFAULT_DIE_BUCKETS),
      raw.lamMakeReadyPct.GetOr(DEFAULT_LAM_MR_PCT),
      raw.wpMakeReadyPct.GetOr(DEFAULT_WP_MR_PCT),
      raw.glueSetups.GetOr(DEFAULT_GLUE_SETUPS),
      raw.printMR.GetOr(DEFAULT_PRINT_MR),
      raw.minMarkupTiers.GetOr([]),
      Pricing(
        pr.roundInc.GetOr(DEFAULT_ROUND_INC),
        pr.prettyEnd.GetOr(DEFAULT_PRETTY_END),
        pr.defaultTarget.GetOr(DEFAULT_TARGET)))
  }

  /** A resolved configuration written back as a document that supplies every section. */
  function Embed(c: Config): RawConfig {
    RawConfig(
      Some(c.materials), Some(c.lamStocks), Some(c.lamFilmGsm), Some(c.windowFilms),
      Some(c.sheet), Some(c.die), Some(c.lam), Some(c.wp), Some(c.glue), Some(c.printRates),
      Some(c.ink), Some(c.coating), Some(c.dieBuckets), Some(c.lamMakeReadyPct),
      Some(c.wpMakeReadyPct), Some(c.glueSetups), Some(c.printMR), Some(c.minMarkupTiers),
      Some(PricingSection(Some(c.pricing.roundInc), Some(c.pricing.prettyEnd), Some(c.pricing.target))))
  }

  /** A document that supplies every section is taken as it is: no default leaks in. */
  lemma ResolveEmbed(c: Config)
    ensures Resolve(Embed(c)) == c
  {
  }

  /** Without a document the built-in defaults apply everywhere. */
  lemma ResolveUnconfigured()
    ensures Resolve(UNCONFIGURED) == DEFAULTS
  {
  }

  /**
   * A supplied section is not completed from the default one: a gluing
   * section with no fields keeps no field, although the default has all three.
   */
  lemma SectionsAreNotMerged(raw: RawConfig)
    requires raw.glue == Some(GlueRates(None, None, None))
    ensures Resolve(raw).glue.sph.None? && DEFAULT_GLUE.sph.Some?
  {
  }

  // ---------------------------------------------------------------------
  // The order form
  // ---------------------------------------------------------------------

  /** Whether the material price is quoted per tonne or per kilogram. */
  datatype PriceMode = PerTonne | PerKg

  /**
   * A snapshot of the order form. `runRate` and `printSetupHr` are the
   * press fields (the latter is shown but never read by the engine).
   */
  datatype Params = Params(
    orderQty: int,
    len: real,
    wid: real,
    nUp: int,
    matName: string,
    priceMode: PriceMode,
    price: real,
    sheetingOn: bool,
    dieOn: bool,
    dieWasteKey: string,
    printOn: bool,
    procCols: int,
    spotCols: int,
    coverage: real,
    coatOn: bool,
    runRate: real,
    printSetupHr: real,
    lamOn: bool,
    lamKey: string,
    wpOn: bool,
    winW: real,
    winH: real,
    winPerPiece: int,
    wpKey: string,
    glueType: string)

  /** The bounds the form's inputs clamp to before the engine sees them. */
  predicate FormClamps(p: Params) {
    && p.nUp >= 1
    && 0 <= p.procCols <= 4
    && 0 <= p.spotCols <= 6
    && p.winPerPiece >= 1
  }
}
