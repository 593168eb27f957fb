# Device value estimator and material price calculator

A Dafny model of the valuation engine in `script.js` of an e-waste recycling
web application. The engine takes the estimator form (device type, brand,
model, condition, age, spec value, battery health, accessories and known
issue). It rejects the form at the first failing check. Otherwise it prices
the device from a catalog profile through a fixed chain of multipliers and
an accessories bonus, floors the result at the profile's minimum and rounds
it to the nearest 10 rupees. It records one audit line per applied factor
(none for a skipped battery step or for the "none" issue, whose factor is 1)
and one for the accessories bonus, and splits the estimate over the
recoverable materials. The quick material price
calculator (`calculatePrice`) is modelled beside it.

Modules:

- `Wrappers`: `Option` and `Result`.
- `Text`: `trim`, ASCII `toLowerCase` and `includes`.
- `Catalog`: the device profiles and the constant tables, with the fallback
  readers (`??`, `||`, `!== false`) as functions.
- `Brands`: brand-tier resolution. `BrandTierOf` is the specification;
  `GetBrandTier` is the loop of the source, proved against it.
- `Pricing`: the multipliers, the audit trail (`AuditEntry`) and the price it
  explains, and the material breakdown.
  - `Price(p, inp)` is defined as the trail replayed over the base price,
    floored and rounded.
  - `PriceAsChain` proves that this equals the running product of the
    pipeline.
- `Estimator`: `estimateValue` as methods.
  - `EstimateValue` runs the checks in the source's order.
  - `Appraise` multiplies step by step while it builds the trail.
  - The worked example is proved.
- `MaterialPrice`: `calculatePrice`.

Numbers are exact reals: `Math.round(x)` is `(x + 0.5).Floor`. A numeric form
field is `Blank` (the default applies), `Number(x)` or `NotANumber`
(`parseFloat` gave NaN).

A worked example: a smartphone in excellent condition, age 0, spec 128,
battery 100, brand "Apple", all accessories and no issue. The battery step is
0.6 + 1.0 × 0.65 = 1.25 (script.js:399-400), so the running estimate is
4200 × 1.25 × 1.15 + 250 = 6287.5, which rounds to 6290
(`Estimator.WorkedExample`).

## Model

| member | source | states |
|---|---|---|
| Text.Trim | script.js:347-348 | the result is a slice `s[i..j]` of the input with only white space before `i` and after `j`; neither end of the result is white space; it is empty exactly when the input is all white space |
| Text.TrimIdempotent | script.js:347-348 | trimming twice is trimming once (the brand is trimmed in `estimateValue` and again in `getBrandTier`) |
| Text.ToLower | script.js:469 | same length, each character lower-cased, no ASCII capital left |
| Text.Contains | script.js:472 | `includes` as a recursive search: the keyword starts the string or occurs in its tail; what it means is stated by `Text.ContainsIff` |
| Text.ContainsIff | script.js:472 | the recursive `includes` holds exactly when the keyword occurs at some position |
| Catalog.CatalogWellFormed | script.js:153-295 | every catalog profile has positive prices, a `minPrice` that is a multiple of 10, a positive spec weight, a non-negative battery weight, non-negative bonuses, and material shares in (0, 1] |
| Catalog.ProfileWellFormed | script.js:153-295 | the same for one profile, looked up by its key |
| Catalog.MinAgeFactor | script.js:390 | `profile.minAgeFactor ?? 0.35`: the profile's own floor when it has one, 0.35 otherwise |
| Catalog.SpecWeight | script.js:394 | the spec weight with its fallback: never 0; the profile's weight when present and non-zero, 0.002 otherwise |
| Catalog.BatteryWeight | script.js:400 | the battery weight with its fallback: never 0; the profile's weight when present and non-zero, 0.5 otherwise |
| Catalog.UsesBattery | script.js:398 | `profile.usesBattery !== false`: the battery step is off exactly when the profile says `false`, and on when it says nothing |
| Catalog.Materials | script.js:448 | the material list with its fallback: the profile's own list when it has one, the default split otherwise |
| Catalog.Portion | script.js:450 | `item.percent ?? 0.2`: the material's own share when it has one, 0.2 otherwise |
| Catalog.OnlyMonitorSkipsBattery | script.js:266-295 | among the catalog profiles, exactly the monitor profile has `usesBattery: false` |
| Brands.AnyKeywordOccurs | script.js:472 | `keywords.some(...)` as a recursive search over the keyword list; what it means is stated by `Brands.AnyKeywordOccursIff` |
| Brands.AnyKeywordOccursIff | script.js:472 | the keyword search succeeds exactly when some keyword of the tier occurs in the normalized brand |
| Brands.NormalizeBrand | script.js:469 | `brand.trim().toLowerCase()`: no longer than the brand, no ASCII capital left, and empty exactly when the brand is all white space |
| Brands.FirstMatch | script.js:471-475 | the index found matches, no earlier tier matches, and none is found exactly when no tier matches |
| Brands.BrandTierOf | script.js:468-477 | the resolved factor lies between the Budget factor 0.92 and the Premium factor 1.15 |
| Brands.BrandTierStandardIffNoMatch | script.js:468-477 | a brand resolves to Standard exactly when no tier's keywords occur in its trimmed, lower-cased form |
| Brands.BrandTierIsFirstMatch | script.js:471-475 | a brand resolves to tier i exactly when tier i matches and no earlier tier does |
| Brands.PremiumKeywordWins | script.js:320-321 | a brand mentioning any Premium keyword is Premium, whatever else it mentions |
| Brands.AppleBusinessIsPremium | script.js:320-321 | "Apple Business" resolves to Premium (1.15), not Business |
| Brands.AppleIsPremium | script.js:320-321 | "Apple" resolves to Premium (1.15) |
| Brands.EarlierTierWins | script.js:320-322 | "Dell Apple" matches a Business keyword too, yet resolves to Premium, the tier listed first |
| Brands.BlankBrandIsStandard | script.js:469-470 | a brand made only of white space resolves to Standard |
| Brands.GetBrandTier | script.js:468-477 | the loop over the tiers returns exactly `BrandTierOf(brand)` |
| Pricing.Clamp | script.js:487-489 | the result is the value, the lower or the upper bound; it lies within the bounds and is the value itself when that is inside them |
| Pricing.RoundHalfUp | script.js:451 | `Math.round`: the result is within half a unit of the input, halves going up |
| Pricing.RoundToTen | script.js:414 | the result is a multiple of 10 within 5 of the input |
| Pricing.RoundToTenAtLeast | script.js:413-414 | rounding to tens never drops below a multiple of 10 the value had already reached |
| Pricing.RoundToTenMonotone | script.js:414 | rounding to tens is monotone |
| Pricing.ConditionMultiplier | script.js:387 | the condition factor lies in [0.45, 1] whatever the key |
| Pricing.IssueMultiplier | script.js:407 | the issue factor lies in [0.45, 1] whatever the key |
| Pricing.AgeMultiplier | script.js:390 | never below the profile's age floor, at most 1 for a non-negative age, exactly 1 for a new device |
| Pricing.AgeMultiplierNonIncreasing | script.js:390 | an older device never gets a larger age factor |
| Pricing.SpecMultiplier | script.js:393-394 | never below 0.6, exactly 1 at the profile's spec baseline |
| Pricing.BatteryMultiplier | script.js:397-401 | lies between the values for 30% and 100% health; every health up to 30% gets the 30% value |
| Pricing.BatteryMultiplierNonDecreasing | script.js:399-400 | better battery health never lowers the battery factor |
| Pricing.AccessoryBonus | script.js:460-466 | the bonus is 0 for an empty key; otherwise the profile's own entry when its table has the key, else the shared fallback table's entry when that has it, else 0; never negative |
| Pricing.UnknownKeysFallBack | script.js:387-466 | an unknown condition gives 0.5, an unknown issue gives 1, and an accessory key in neither table gives 0 |
| Pricing.CatalogAccessoryBonus | script.js:460-466 | a catalog profile's bonus table has exactly all, basic and none; the bonus is that entry for those keys and 0 otherwise; none ≤ basic ≤ all |
| Pricing.Trail | script.js:416-432 | the audit lines of one valuation; which input and factor each line records, and which lines are present, are stated by `Pricing.TrailShape`, and their replay by `Pricing.TrailMatchesChain` |
| Pricing.Price | script.js:385-414 | the estimate is the trail replayed over the base price, floored and rounded; it is at least `minPrice` and a multiple of 10 |
| Pricing.Chain | script.js:385-411 | the six `estimate *=` steps and the `estimate +=` bonus; `Pricing.ChainMonotone` states how it moves with its factors |
| Pricing.BatteryFactor | script.js:397-402 | the battery step's factor: the battery multiplier when the profile uses battery, 1 when it skips the step; at least 0.6 either way |
| Pricing.PipelineEstimate | script.js:385-411 | the running estimate before the floor for a profile and its inputs; `Pricing.TrailMatchesChain` proves the trail replays to it |
| Pricing.ReplayAppend | script.js:385-411 | replaying a concatenated trail is replaying its parts in turn |
| Pricing.ReplayAssemble | script.js:416-432 | replaying an assembled trail applies its parts in pipeline order |
| Pricing.ReplayCanonical | script.js:385-411 | a trail of the assembled shape replays as the base times each factor (1 for an absent entry) plus the bonus |
| Pricing.TrailMatchesChain | script.js:385-430 | replaying the audit trail reproduces the pipeline's running estimate; leaving out the "none" issue loses nothing because its factor is 1 |
| Pricing.NoIssueIsNeutral | script.js:305 | the "none" issue has factor 1 |
| Pricing.PriceAsChain | script.js:385-414 | the estimate the trail explains is the running product, floored at `minPrice` and rounded to tens |
| Pricing.ExplainedFloorAndGranularity | script.js:413-414 | whatever a trail lists, the estimate it explains is at least `minPrice` and a multiple of 10 |
| Pricing.ChainMonotone | script.js:385-411 | lowering the age or battery factor never raises the running estimate when the other factors are non-negative |
| Pricing.EstimateNonIncreasingInAge | script.js:390-391 | with everything else fixed, an older device never gets a higher estimate |
| Pricing.EstimateNonDecreasingInBattery | script.js:397-402 | with everything else fixed, better battery health never lowers the estimate |
| Pricing.LowBatteryHealthIsClamped | script.js:399 | every battery health up to 30% gives the same estimate |
| Pricing.BatteryIgnoredWithoutBatteryStep | script.js:397-424 | for a profile with `usesBattery: false`, battery health changes neither the estimate nor the trail, and the trail has no battery entry |
| Pricing.TrailShape | script.js:416-432 | each entry records its own step's input and factor: condition, age and spec first; a battery entry exactly when the profile uses battery; then the brand tier; an issue entry exactly when the key is not "none"; the accessories bonus last |
| Pricing.AssembleShape | script.js:416-432 | the position of every entry in an assembled trail, and which optional entries are present |
| Pricing.RecoveredValue | script.js:451 | `Math.max(80, Math.round(estimate * portion))`: at least 80; exactly 80 when the share is below 80.5; otherwise the share rounded to the nearest unit |
| Pricing.RecoveredValueMonotone | script.js:451 | for a non-negative share, a higher estimate never lowers the recovered value |
| Pricing.BreakdownItemOf | script.js:449-456 | one breakdown line: the material's name and recovered value, its icon or the recycling icon, its description or "Recovered materials" |
| Pricing.BuildMaterialBreakdown | script.js:447-458 | one line per material of the profile (or of the default split), in order, with the material's name; each value is exactly 80 when the share is below 80.5 and otherwise the share rounded to the nearest unit; missing icons and descriptions fall back to the generic ones |
| Pricing.BreakdownMonotone | script.js:447-458 | a higher estimate never lowers the value recovered for any material |
| Estimator.AgeOf | script.js:366 | the age in years: 2 for a blank field, the number typed otherwise, NaN exactly for an unparsable field |
| Estimator.SpecOf | script.js:367 | the spec value: the profile's spec baseline for a blank field, the number typed otherwise, NaN exactly for an unparsable field |
| Estimator.BatteryOf | script.js:368 | the battery health: 85 for a blank field, the number typed otherwise, NaN exactly for an unparsable field |
| Estimator.Resolve | script.js:366-368 | a blank field gives its default, a number gives itself, and NaN is reported exactly for an unparsable field |
| Estimator.AccessoriesLabel | script.js:440 | the label of a known key, "Not specified" for an unknown key, never empty |
| Estimator.Co2Saved | script.js:443 | the profile's CO2 saving, or 10 when it is missing or zero |
| Estimator.Appraise | script.js:385-432 | the step-by-step estimate equals `Price`, the trail it builds equals `Trail`, and the estimate is at least `minPrice` and a multiple of 10 |
| Estimator.EstimateValue | script.js:335-445 | the checks run in order: device type, brand and model, supported type, age, spec, battery; the first failure decides the error; success exactly when every check passes, and then the valuation holds the priced estimate, the trail, the trimmed brand and model, the label, the breakdown of that estimate and the CO2 saving |
| Estimator.EstimateForProfile | script.js:365-445 | the age, spec and battery checks in order; success exactly when the numbers are valid, with the valuation described above, never below `minPrice`, a multiple of 10 |
| Estimator.ExampleAccepted | script.js:335-383 | the worked example's form passes every check |
| Estimator.ExampleInputs | script.js:365-404 | the worked example's form is priced with age 0, spec 128, battery 100 and the Premium tier |
| Estimator.WorkedExample | script.js:385-414 | the worked example (smartphone, excellent, new, baseline spec, full battery, Apple, all accessories, no issue) is valued at 6290 |
| MaterialPrice.GradeMultiplier | script.js:633-646 | the grade factor lies in [0.5, 1]; an unknown grade counts as 1 |
| MaterialPrice.CalculatePrice | script.js:610-647 | an empty material, an unparsable quantity or one that is not positive is refused first; a material without a base price is refused next; otherwise the total is unit price × quantity × grade factor |
| MaterialPrice.QuoteBounds | script.js:623-647 | a quote is positive and lies between half the undiscounted price and the undiscounted price |
| MaterialPrice.QuoteAdditive | script.js:646-647 | two lots of the same material and grade cost as much separately as together |
| MaterialPrice.GradesOrdered | script.js:633-647 | Excellent, Good, Fair and Poor give non-increasing totals, in that order |

## Left out

- The DOM, `alert`, the result card, `toFixed` and `formatINR`. The audit lines are modelled as `AuditEntry` values, not as formatted strings, and the breakdown's `detail` text as its description and value.
- Text parsing by `parseFloat`: a numeric field arrives as `Blank`, `Number(x)` or `NotANumber`. A field that parses to `Infinity` cannot be expressed. In the source an infinite spec value passes the `isNaN` and sign checks (script.js:376) and prices to an infinite estimate. The same holds for the quantity of `calculatePrice` (script.js:611), which arrives as `Option<real>`: an infinite quantity passes the check at script.js:615 and gives an infinite total (script.js:646).
- IEEE-754 doubles: the arithmetic is exact. A rounding that lands within floating-point error of a half may differ.
- `toLowerCase` beyond ASCII letters. A brand whose non-ASCII characters lower-case to ASCII can resolve differently. For example, U+212A KELVIN SIGN lower-cases to `k`, so "NO\u212AIA" is Mainstream in the source and Standard in the model.
- Keys inherited through JavaScript's object prototype (such as `"constructor"`): an unknown key is simply absent from a table.
- `conditionLabel`: it is the text of the selected DOM option.
- `profile.defaultAge`: no profile sets it, so a blank age defaults to 2.
- The brand tier is resolved before the multiplications in `EstimateForProfile`, not between the battery and issue steps. Resolution has no effects, so the estimate is the same.
- Pricing.EstimateNonIncreasingInAge: requires a non-negative tier factor. Every tier from `BrandTierOf` has one, but `Inputs` accepts any tier.
- Pricing.EstimateNonDecreasingInBattery: requires a non-negative tier factor, for the same reason.
- The rest of `script.js` (navigation, login, pickup scheduling, the battery checker, tips, counters and animations) is not part of this model.
