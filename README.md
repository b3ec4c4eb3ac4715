# Carton cost estimator — costing and pricing engine

This project models the engine of a folding-carton quoting screen: it
takes a snapshot of the order form (quantity, sheet size, units per
sheet, board, and the switches and settings of each stage) together with
the shop's configuration (boards, films, machine rates, make-ready
tables, markup tiers, pricing settings), and computes:

- the base sheet count, sheet area and board cost per unit;
- the make-ready and waste counts: die bucket, lamination waste,
  window-patch pieces and gluing make-ready;
- the six stage costs: sheeting, die-cutting, printing, lamination,
  window patching and gluing. Each stage except gluing is switched by the
  form and costs nothing when off;
- the unit cost as the exact sum of material and the six stage shares;
- the sell price per thousand: the margin-derived price, rounded up to
  the rounding increment, moved to the "pretty" ending, then rounded to
  cents;
- the order totals with 10% GST, the achieved margin and markup, and the
  below-tier warning against the tiered minimum markup.

Money, rates and percentages are exact `real`s. Sheet and piece counts are
`int`. `Math.ceil` is `Ceil(x) = -((-x).Floor)`.

The configuration is modelled twice:

- `RawConfig` holds an `Option` per section of the configuration document.
- `Config` is the resolved configuration. `Resolve` replaces a missing
  section by its default as a whole and merges nothing field by field.
- The `x || d` fallbacks the engine applies to single fields (press speed,
  run rate, ink and coating price, make-ready sheets, gluing rates) are
  `OrReal`/`OrInt` at their points of use. There a zero counts as missing.

The form is `Params`. The bounds the form clamps its inputs to are the
predicate `FormClamps`. `Admissible` adds what the engine needs without
checking it:

- a positive speed for every enabled stage that divides by its own;
- a board, and a stock or film for each enabled stage that reads one;
- a positive rounding increment;
- a target margin below 100%.

Three parts of the engine work by updating local variables, and each is a
method proved equal to the function the rest of the model uses:

- `TierMinMarkup`: a loop raising a running floor;
- `SellPer1000`: reassigning the price step by step;
- `Printing`: coating cost and labour set only when coating is on.

Modules:

- `Wrappers`: `Option`.
- `Numeric`: `Ceil`, the `||` fallbacks, and small order lemmas.
- `Inputs`: entities, configuration, defaults, `Resolve`, `Params`.
- `Geometry`: base sheets, area, paper cost, stock selection.
- `Waste`: make-ready counts.
- `Stages`: the six stage calculators.
- `PriceResolver`: tiers, sell price, totals.
- `Engine`: the whole estimate and its cross-stage lemmas.

## Model

| member | source | states |
|---|---|---|
| Inputs.Resolve | src/App.tsx:31-49 | every one of the nineteen sections is the supplied one when present and its own built-in default when absent, whatever else the document holds, and a supplied section is never completed from the default; the pricing fields (lines 191-194) fall back one by one to increment 0.5, ending 0.95 and target 0.25 |
| Inputs.ResolveEmbed | src/App.tsx:31-49 | a document that supplies every section resolves to exactly that configuration: no default leaks in |
| Inputs.ResolveUnconfigured | src/App.tsx:9-49 | with no document every section and every pricing field takes the built-in default |
| Inputs.SectionsAreNotMerged | src/App.tsx:41 | a gluing section with no fields keeps no field, although the default gluing section has all three |
| Numeric.Ceil | src/App.tsx:70 | the result is the least integer not below its argument |
| Geometry.BaseSheets | src/App.tsx:70 | base sheets are non-negative, hold at least the ordered units at `max(1, nUp)` per sheet, and one sheet fewer would not |
| Geometry.CeilDivBounds | src/App.tsx:70 | the ceiling of `q / per` times `per` reaches `q` and stays below `q + per` |
| Geometry.SheetArea | src/App.tsx:71 | the area is non-negative; for non-negative sides it is length times width in m², and a negative side makes it 0 |
| Geometry.CostPerKg | src/App.tsx:73 | a per-tonne price is a thousand times the per-kg cost; a per-kg price is taken as it is |
| Geometry.MaterialPerUnit | src/App.tsx:72-75 | `nUp` units share one sheet's paper cost exactly; 0 when `nUp` is not positive |
| Geometry.PriceModesAgree | src/App.tsx:73 | quoting a board per tonne, or per kg at a thousandth of that, costs the same per unit |
| Geometry.FindFirst | src/App.tsx:66 | the index found is the first element matching, and none is found only when nothing matches |
| Geometry.Select | src/App.tsx:66 | the first matching element when one exists, otherwise the fallback position or nothing when the list is too short |
| Geometry.MaterialFor | src/App.tsx:66 | when some board has the chosen name the result is the first such board in the list; otherwise the second board, or nothing |
| Geometry.LamStockFor | src/App.tsx:93 | when some stock has the chosen key the result is the first such stock in the list; otherwise the first stock, or nothing |
| Geometry.WindowFilmFor | src/App.tsx:101 | when some film has the chosen key the result is the first such film in the list; otherwise the first film, or nothing |
| Waste.DieWasteSheets | src/App.tsx:80 | the bucket's sheets for a listed key, 50 for a key the table lacks |
| Waste.LamWasteSheets | src/App.tsx:94 | the least whole sheet count covering the lamination percentage of the base sheets |
| Waste.SheetingRunSheets | src/App.tsx:107-113 | the sheeter cuts die run plus lamination waste (equally lamination run plus die waste), so with non-negative wastes it covers both downstream runs |
| Waste.WindowPieces | src/App.tsx:166 | the least whole count covering the order plus its make-ready percentage, never fewer than ordered for a non-negative percentage |
| Waste.GlueProfileFor | src/App.tsx:178-180 | a configured gluing type uses its own profile; any other uses 3 setup hours, 3% make-ready and no fixed pieces |
| Waste.GlueMakeReadyPct | src/App.tsx:179 | the make-ready percentage is the snake-case key's value, else the camel-case key's value, else 0 |
| Waste.GlueMakeReadyFixed | src/App.tsx:180 | the fixed make-ready pieces are the profile's value, else 0 |
| Waste.GlueMakeReady | src/App.tsx:181 | make-ready pieces are the least non-negative whole count covering `qty * pct + fixed` |
| Stages.PerUnit | src/App.tsx:115 | the per-unit share times `max(1, orderQty)` is exactly the stage total |
| Stages.Sheeting | src/App.tsx:110-116 | nothing when off; when on, setup plus the run of base, die-waste and lamination-waste sheets, shared exactly over the order |
| Stages.DieCut | src/App.tsx:118-124 | nothing when off; when on, setup plus the run of base plus die-waste sheets, shared exactly over the order |
| Stages.MachineCostPerSheet | src/App.tsx:112-114 | each extra sheet through a sheeter or die-cutter adds exactly its run rate over its speed |
| Stages.Inks | src/App.tsx:128 | ink units are process plus spot colours with a negative count read as 0: the sum when both are non-negative, the other count when one is negative, 0 when both are |
| Stages.PrintSetupHoursPerInk | src/App.tsx:129-130 | press setup is one hour with no ink units and each unit adds a quarter hour, so four process colours take exactly two hours |
| Stages.PrintMakeReadyParts | src/App.tsx:131 | press make-ready is the base sheets with no ink and no coating; each ink unit adds the per-colour sheets and coating adds the coating adder |
| Stages.ClampCoverage | src/App.tsx:136 | coverage used is 0 below 0, 100 above 100, and unchanged in between |
| Stages.CoatLabour | src/App.tsx:146 | coating labour is press hours times the coating rate when coating is on and that rate is positive, and 0 otherwise |
| Stages.PrintingCost | src/App.tsx:126-150 | nothing at all (hours and sheet counts included) when off; when on, make-ready sheets from base, per-colour and coating adder, setup hours from the ink units alone, ink cost over the sheets run at the clamped coverage for every ink unit, coating cost over the sheets run when coating, total labour plus ink plus coating plus coating labour; no coating cost without coating; shared exactly over the order |
| Stages.Printing | src/App.tsx:126-150 | the printing stage computed with coating cost and labour starting at zero and overwritten only when coating is on equals `PrintingCost` |
| Stages.CoverageIsClamped | src/App.tsx:136 | any coverage prices exactly as its clamped value |
| Stages.Lamination | src/App.tsx:152-162 | nothing when off; when on, setup, run and film over base plus lamination waste sheets, film per unit shared over `nUp`, total shared exactly over the order |
| Stages.WindowArea | src/App.tsx:167 | the window area is non-negative; for non-negative sides it is width times height in m², and a negative side makes it 0 |
| Stages.WindowPatch | src/App.tsx:164-175 | nothing when off; when on, setup, run and film over the make-ready-inclusive pieces, film for every window on a piece, total shared exactly over the order |
| Stages.Gluing | src/App.tsx:177-187 | computed with no switch; make-ready from the type's profile, setup at 35 an hour, run over order plus make-ready pieces at both operators' rates with the 2000/35/45 fallbacks; shared exactly over the order |
| PriceResolver.ScanTiers | src/App.tsx:53-56 | the scanned floor is non-negative, at least every qualifying tier's markup, and either 0 or the markup of a qualifying tier |
| PriceResolver.Staircase | src/App.tsx:58 | the built-in floor is 0 below 1000 units, 0.70 from 1000, 0.60 from 5000 and 0.50 from 10000 |
| PriceResolver.MinMarkup | src/App.tsx:51-59 | the floor is the tier scan when the tier list is non-empty and the staircase when it is empty or absent |
| PriceResolver.TierMinMarkup | src/App.tsx:51-59 | the loop over the tiers returns the tier scan when tiers exist and the built-in staircase otherwise |
| PriceResolver.ScanTiersMonotone | src/App.tsx:55 | with a tier list a larger order never gets a lower floor |
| PriceResolver.StaircaseIsNotMonotone | src/App.tsx:58 | the built-in staircase falls from 0.70 to 0.60 to 0.50 as the order grows, while the same steps as a tier list give 0.70 at 10000 |
| PriceResolver.RawUnitPrice | src/App.tsx:198 | 0 for a cost that is not positive; otherwise a positive price whose margin over the cost is exactly the target share of it |
| PriceResolver.RoundUp | src/App.tsx:200 | a multiple of the increment, not below the value, less than one increment above it |
| PriceResolver.RoundUpBounds | src/App.tsx:200 | the ceiling multiple lies in `[x, x + inc)` and is a multiple of `inc` |
| PriceResolver.RoundUpIsLeast | src/App.tsx:200 | no multiple of the increment lies between the value and its rounding up |
| PriceResolver.PrettyEnding | src/App.tsx:201 | "none" leaves the price unchanged; an ending in [0, 1) gives the price in `[x, x + 1)` with exactly that fractional part |
| PriceResolver.PrettyEndingIsLeast | src/App.tsx:201 | no price with that ending lies between the rounded price and its pretty ending |
| PriceResolver.ToFixed2 | src/App.tsx:202 | the result is a whole number of cents within half a cent of its argument |
| PriceResolver.HalfUpCentsBounds | src/App.tsx:202 | rounding half up to cents yields whole cents within half a cent |
| PriceResolver.ToFixed2OfCents | src/App.tsx:202 | a whole number of cents is left unchanged |
| PriceResolver.SellPrice | src/App.tsx:197-203 | with an ending in range the price per thousand lies between the margin-derived price (less half a cent) and that price plus one increment plus one (plus half a cent) |
| PriceResolver.SellPriceCoversTarget | src/App.tsx:197-203 | with whole-cent increment and ending the price per thousand is never below the margin-derived price |
| PriceResolver.SellPriceIsPretty | src/App.tsx:197-202 | with whole-cent increment and ending `toFixed(2)` changes nothing: the price is exactly the pretty ending of the rounded margin-derived price |
| PriceResolver.SellPriceHasEnding | src/App.tsx:201-202 | with whole-cent settings and a configured ending every price per thousand has exactly that ending as its fractional part |
| PriceResolver.ZeroCostSellsAtEnding | src/App.tsx:191-202 | a zero cost at the default settings sells at 0.95 per thousand |
| PriceResolver.HundredEndsAtNinetyFive | src/App.tsx:197-202 | a margin-derived 100.00 per thousand at the default settings becomes 100.95 |
| PriceResolver.SellPer1000 | src/App.tsx:197-203 | the step-by-step reassignment of the price computes `SellPrice` |
| PriceResolver.OrderTotals | src/App.tsx:205-210 | unit price is a thousandth of the price per thousand; order value before and after 10% GST; margin and markup achieved over their bases, 0 when the base is not positive; warning exactly when markup is under the floor |
| PriceResolver.MarkupFromMargin | src/App.tsx:208-209 | achieved markup and margin describe the same price: markup times (1 − margin) is margin |
| PriceResolver.PriceAboveRawMeetsMargin | src/App.tsx:198-208 | any price at or above the margin-derived price achieves at least the target margin |
| Engine.Estimate | src/App.tsx:70-210 | base sheets, area, material, waste counts, every stage, the tier floor, the price per thousand (the sell price of the unit cost) and the totals each come from their calculators over the form and configuration; unit cost is exactly material plus the six stage shares; each switched-off stage costs nothing; the warning is markup under the quantity's floor |
| Engine.ToggleStage | src/App.tsx:110-189 | switching any one stage off zeroes its share and total, lowers the unit cost by exactly its former share, and leaves material and gluing as they were |
| Engine.GluingAlwaysCharged | src/App.tsx:177-189 | with every switch off the unit cost is material plus gluing, and gluing costs what it costs with any switches |
| Engine.SheetingIgnoresDownstreamSwitches | src/App.tsx:110-116 | switching die-cutting and lamination off does not change the sheeting cost |
| Engine.ManualSetupHoursIgnored | src/App.tsx:129-130 | the manual press setup hours on the form never change the estimate |
| Engine.QuoteMeetsTargetMargin | src/App.tsx:197-208 | with whole-cent pricing settings a quote for a positive cost achieves at least the target margin |
| Engine.QuoteEndsInEnding | src/App.tsx:189-202 | with whole-cent settings and a configured ending every quote's price per thousand ends in that ending, `.95` at the built-in settings |

Helpers with no contract of their own are specified through the rows of
the members that use them: `Engine.UnitCost` (src/App.tsx:189) through
`Engine.Estimate` and the toggle lemmas; `Geometry.PaperCostPerSheet`
(src/App.tsx:72-74) through `Geometry.MaterialPerUnit`;
`Waste.DieRunSheets` and `Waste.LamRunSheets` (src/App.tsx:107-108)
through `Waste.SheetingRunSheets`, `Stages.DieCut` and
`Stages.Lamination`; `Stages.PrintSetupHours`, `Stages.PressHours`,
`Stages.PressLabour`, `Stages.PrintMakeReadySheets`, `Stages.InkCost`,
`Stages.InkKgPerSheet`, `Stages.CoatCost` and `Stages.CoatKgPerSheet`
(src/App.tsx:128-147) through `Stages.PrintingCost` and the lemmas next
to it; `Stages.MachineTotal` through `Stages.Sheeting` and
`Stages.DieCut`.

## Left out

- Fetching the configuration document and its promise chain (src/App.tsx:27-29) is network I/O. The document is the `RawConfig` input.
- React state, effects and memo dependency lists (src/App.tsx:61-105) are UI plumbing. This includes the effect that resets the run rate and the manual setup hours when the configuration arrives. Their values are fields of the `Params` snapshot.
- The rendering, the admin toggle, currency formatting and the quantity options list are presentation only (src/App.tsx:8, 15, 32, 212-450).
- The UI wrapper components `select.tsx`, `card.tsx` and `label.tsx` hold no logic and are not part of this model.
- Floating point is not modelled: arithmetic is exact. This covers binary rounding in `Math.ceil(p1000/roundInc)` and in `toFixed(2)`. `PriceResolver.ToFixed2` rounds exact reals half away from zero.
- The `NaN`/`Infinity` that unguarded zero speeds produce are not modelled. Zero speeds are excluded by `Admissible`.
- Reading the pretty ending from a string with `Number(...)` is not modelled. The ending is an `Option<real>`, and `None` is "none".
- A selected board, lamination stock or window film that is absent together with its fallback would crash the screen. It is a precondition instead, and only for a stage that reads it.
- The form's input clamps (src/App.tsx:234, 301, 305, 383) are the precondition `FormClamps`, not modelled operations.
- The pricing section's `default_strategy` and the print make-ready's `varnishAdderSheets` are read by nothing in the engine. The latter is kept in the data only.
- The built-in staircase returns 0.70 from 1000 units, 0.60 from 5000 and 0.50 from 10000, so it is not monotone; `PriceResolver.StaircaseIsNotMonotone` proves it falls.
- Stages.Lamination, Stages.WindowPatch, Stages.Gluing, Stages.Sheeting and Stages.DieCut: their "when on" clauses state the cost decomposition as the source writes it. Their independent content is the zero-when-off and exact per-unit sharing clauses, plus the lemmas in `Engine`.
- PriceResolver.SellPrice: the bound holds to half a cent rather than exactly, because `toFixed(2)` can round a price that is not whole cents down. `PriceResolver.SellPriceCoversTarget` gives the exact bound when the settings are whole cents.
