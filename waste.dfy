/** Make-ready and waste counts: the sheets and pieces each stage spoils or sets up with. */
module Waste {
  import opened Wrappers
  import opened Numeric
  import opened Inputs

  /** Die make-ready sheets for the chosen bucket; a bucket the table lacks costs 50 sheets. */
  function DieWasteSheets(buckets: map<string, int>, key: string): (w: int)
    ensures key in buckets ==> w == buckets[key]
    ensures key !in buckets ==> w == 50
  {
    if key in buckets then buckets[key] else 50
  }

  /** Lamination make-ready: the least whole sheet count covering `pct` of the base sheets. */
  function LamWasteSheets(baseSheets: int, pct: real): (w: int)
    ensures w as real >= baseSheets as real * pct
    ensures (w - 1) as real < baseSheets as real * pct
  {
    Ceil(baseSheets as real * pct)
  }

  /** Sheets through the die-cutter: base sheets plus its make-ready. */
  function DieRunSheets(baseSheets: int, dieWaste: int): int {
    baseSheets + dieWaste
  }

  /** Sheets through the laminator: base sheets plus its make-ready. */
  function LamRunSheets(baseSheets: int, lamWaste: int): int {
    baseSheets + lamWaste
  }

  /**
   * Sheets the sheeter cuts: the base sheets plus both downstream wastes,
   * so it covers the larger of the die-cutter's and the laminator's demand
   * whenever those wastes are non-negative.
   */
  function SheetingRunSheets(baseSheets: int, dieWaste: int, lamWaste: int): (s: int)
    ensures s == DieRunSheets(baseSheets, dieWaste) + lamWaste
    ensures s == LamRunSheets(baseSheets, lamWaste) + dieWaste
    ensures dieWaste >= 0 && lamWaste >= 0 ==>
              s >= DieRunSheets(baseSheets, dieWaste) && s >= LamRunSheets(baseSheets, lamWaste)
  {
    baseSheets + dieWaste + lamWaste
  }

  /**
   * Pieces through the window patcher: the least whole count covering the
   * order plus `pct` make-ready; never fewer than ordered when `pct >= 0`.
   */
  function WindowPieces(orderQty: int, pct: real): (n: int)
    ensures n as real >= orderQty as real * (1.0 + pct)
    ensures (n - 1) as real < orderQty as real * (1.0 + pct)
    ensures orderQty >= 0 && pct >= 0.0 ==> n >= orderQty
  {
    var n := Ceil(orderQty as real * (1.0 + pct));
    assert orderQty as real * (1.0 + pct) == orderQty as real + orderQty as real * pct;
    n
  }

  /** The profile used when the chosen gluing type is not configured. */
  const FALLBACK_GLUE_PROFILE: GlueProfile := GlueProfile(3.0, None, Some(0.03), Some(0.0))

  /** The gluing profile for `glueType`, or the fallback profile. */
  function GlueProfileFor(setups: map<string, GlueProfile>, glueType: string): (g: GlueProfile)
    ensures glueType in setups ==> g == setups[glueType]
    ensures glueType !in setups ==> g.setupHr == 3.0 && GlueMakeReadyPct(g) == 0.03 && GlueMakeReadyFixed(g) == 0.0
  {
    if glueType in setups then setups[glueType] else FALLBACK_GLUE_PROFILE
  }

  /** The make-ready percentage: the snake-case key, else the camel-case key, else 0. */
  function GlueMakeReadyPct(g: GlueProfile): (pct: real)
    ensures g.mrPiecesPct.Some? ==> pct == g.mrPiecesPct.value
    ensures g.mrPiecesPct.None? && g.mrPiecesPctCamel.Some? ==> pct == g.mrPiecesPctCamel.value
    ensures g.mrPiecesPct.None? && g.mrPiecesPctCamel.None? ==> pct == 0.0
  {
    g.mrPiecesPct.GetOr(g.mrPiecesPctCamel.GetOr(0.0))
  }

  /** The fixed make-ready pieces, 0 when the profile has none. */
  function GlueMakeReadyFixed(g: GlueProfile): (fixed: real)
    ensures g.mrFixed.Some? ==> fixed == g.mrFixed.value
    ensures g.mrFixed.None? ==> fixed == 0.0
  {
    g.mrFixed.GetOr(0.0)
  }

  /**
   * Gluing make-ready pieces: the least non-negative whole count covering
   * `pct` of the order plus `fixed` pieces.
   */
  function GlueMakeReady(orderQty: int, pct: real, fixed: real): (mr: int)
    ensures mr >= 0
    ensures mr as real >= orderQty as real * pct + fixed
    ensures mr > 0 ==> (mr - 1) as real < orderQty as real * pct + fixed
  {
    var c := Ceil(orderQty as real * pct + fixed);
    if c < 0 then 0 else c
  }
}
