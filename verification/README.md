# Kitchen hood calculator: a verified model

This project models the core of a kitchen extraction-hood calculator, written in Dafny.

- **Flow.** The calculator sizes the extraction flow from the hood's free perimeter (`L + 2F` for a wall hood, `2L + 2F` for an island hood), the capture velocity and a safety margin.
- **Duct and losses.** It sizes the duct section for a duct velocity. It adds up the friction loss over the straight run plus the equivalent length of each accessory, then adds the filter and outlet losses.
- **Electrostatic filter.** An optional filter caps the flow at the filter's maximum and adds its own pressure drop.
- **Validation.** The input is checked against field ranges, the installation height recommended for the kitchen type, the dimensions a rectangular duct needs, and the filter's maximum flow.
- **Bill of materials.** A priced bill lists the duct, the accessories, the terminal, the fan and the filter.
- **Vendor data.** A rule table picks the motor of a TEVEX monoblock hood. The vendor's fixed-width hood table is read line by line.

Modules, one per source file:

| module | file | source |
|---|---|---|
| `HoodCalc` | `hood_calc.dfy` | `src/lib/hoodCalc.ts` |
| `IndexPage` | `index_page.dfy` | the filter adapter, filter lookup, form setters and capture-velocity effect of `src/pages/Index.tsx` |
| `Validation` | `validation.dfy` | `src/lib/validation.ts` |
| `Budget` | `budget.dfy` | `src/lib/budget.ts` |
| `TevexMotorRules` | `tevex_motor_rules.dfy` | `src/lib/tevexMotorRules.ts` |
| `TevexCsv` | `tevex_csv.dfy` | the text parsing of `src/lib/tevexCsv.ts` |
| `ElectroFilters` | `electro_filters.dfy` | `src/lib/electroFilters.ts` |
| `Fans`, `Tevex` | `catalogue.dfy` | the model names of `src/data/fans.ts` and `src/data/tevex.ts` |
| `Wrappers`, `Text`, `JsMath` | `wrappers.dfy`, `text.dfy`, `jsmath.dfy` | shared helpers: `T \| undefined`, the JavaScript string operations the core uses, `Math.round` and `Math.ceil` |

Modelling conventions:

- **Numbers** are exact `real`s. `Math.round(x)` is `floor(x + 0.5)` and `Math.ceil(x)` is `-floor(-x)`.
- **The diameter** `sqrt(4A/π)` is not computed. `HoodCalc.Diameter` records the area it is a function of.
- **Optional fields** are `Option`s. JavaScript truthiness of an optional number is "present and not 0" (`HoodCalc.Truthy`).
- **Stateful code follows the source.**
  - `computeAll`, `validateInput`, `computeBOM` and the line loop of the hood-table loader are methods that build their results step by step, as the source does. Each is proved equal to a specification function.
  - The page's form state is a class whose methods are the setters.
  - The pure helpers are functions.

Facts about the code that the model keeps:

- **Validation bounds.** The input schema bounds the capture velocity to 0.1–0.5 m/s and the duct velocity to 5–15 m/s.
- **Fan selection.** It is the placeholder `selectVentilador`. The code has no curve-based matcher and no synthetic curve scaling.
- **Zero divisor.** The page can pass a duct velocity of 0 to `computeAll`: a cleared or "0" field is stored as 0 (src/pages/Index.tsx:276), and the page calls `computeAll` on every render with no guard and without `validateInput` (src/pages/Index.tsx:74). The code then divides by zero and produces Infinity or NaN. The model excludes that case by a precondition.
- **Segmented duct lengths.** The code has no segmented duct lengths, so there is no warning about them.
- **Filter below its maximum.** When the filter is active but not exceeded, the code still replaces the design flow with the un-margined flow. The results are unchanged, and `IndexPage.ActiveFilterCapsFlow` states the flow outcome.

## Model

| member | source | states |
|---|---|---|
| HoodCalc.WithCount | src/pages/Index.tsx:81-83 | setting one accessory count gives it the new value and keeps the other four |
| HoodCalc.CalcCaudal | src/lib/hoodCalc.ts:58-61 | equals `calcQ` on every input; never negative for non-negative dimensions and velocity |
| HoodCalc.CalcQ | src/lib/hoodCalc.ts:96-99 | never negative for non-negative inputs, positive once L and Vap are positive (F ≥ 0), 0 at zero capture velocity |
| HoodCalc.FlowByHoodType | src/lib/hoodCalc.ts:58-99 | wall hoods use perimeter L+2F and island hoods 2L+2F, times Vap·3600; `calcCaudal` and `calcQ` agree on every input |
| HoodCalc.CentralExceedsMural | src/lib/hoodCalc.ts:96-99 | an island hood needs exactly L·Vap·3600 m³/h more than a wall hood of the same size |
| HoodCalc.FlowStrictlyMonotone | src/lib/hoodCalc.ts:96-99 | with positive dimensions and velocity the flow strictly grows in each of L, F and Vap |
| HoodCalc.ApplyMargin | src/lib/hoodCalc.ts:101-103 | a 0% margin leaves the flow as it is; for Q ≥ 0 a non-negative margin never lowers it and a non-positive one never raises it |
| HoodCalc.ApplyMarginMonotone | src/lib/hoodCalc.ts:101-103 | a 0% margin leaves the flow unchanged; for Q ≥ 0 a larger margin never gives less, and for Q > 0 it gives strictly more |
| HoodCalc.MarginRoundTrip | src/lib/hoodCalc.ts:101-103 | dividing by the factor 1 + m/100 undoes the margin and vice versa, whenever the factor is not 0 |
| HoodCalc.CalcConducto | src/lib/hoodCalc.ts:63-68 | the area carries exactly the flow at the duct velocity (A·Vd·3600 = Q); the diameter derives from that area |
| HoodCalc.CalcDuctSection | src/lib/hoodCalc.ts:105-110 | Qs·3600 = Q, A·Vd = Qs, and the diameter in mm derives from A |
| HoodCalc.DuctSectionRoundTrip | src/lib/hoodCalc.ts:63-110 | both duct helpers give the same area and diameter, and that area carries back exactly the flow it was sized for |
| HoodCalc.CalcLeq | src/lib/hoodCalc.ts:112-120 | with no accessories Leq is the straight length; with non-negative counts it is never less |
| HoodCalc.LeqAccessoryStep | src/lib/hoodCalc.ts:112-120 | with no accessories Leq is the straight length; one more accessory adds exactly its constant (3, 1.5, 1.5, 2, 2 m) |
| HoodCalc.LeqLowerBound | src/lib/hoodCalc.ts:112-120 | with non-negative counts Leq ≥ the straight length, and Leq > it as soon as one count is positive |
| HoodCalc.CalcLosses | src/lib/hoodCalc.ts:122-126 | the total exceeds the friction loss by exactly the filter plus the outlet loss |
| HoodCalc.LossesAdditive | src/lib/hoodCalc.ts:122-126 | friction loss = rate × Leq; d more Pa of filter loss raises the total by d and leaves the friction loss alone |
| HoodCalc.PerdidasAgreesWithLosses | src/lib/hoodCalc.ts:70-80 | `calcPerdidas` is `calcLosses`' total on `calcLeq` of the run, a missing filter or outlet loss counting as 0 |
| HoodCalc.CalcPerdidas | src/lib/hoodCalc.ts:70-80 | with non-negative friction, counts and fixed losses the total is at least friction × straight run; with zero friction it is the filter plus the outlet loss |
| HoodCalc.SelectVentilador | src/lib/hoodCalc.ts:89-94 | the selector always answers, names no model, and asks for ⌈Q⌉ m³/h and ⌈1.25·Δp⌉ Pa (the least integers not below them) |
| HoodCalc.RectVelocity | src/lib/hoodCalc.ts:153-157 | the rectangular velocity exists exactly for a rectangular duct with both dimensions non-zero, and times the area it gives Qs |
| HoodCalc.ResultsFor | src/lib/hoodCalc.ts:128-164 | Qs·3600 = Q, the diameter derives from the area, the total loss is the friction loss plus the fixed losses, and there is at most one advisory |
| HoodCalc.IsGasKitchen | src/lib/hoodCalc.ts:133 | a gas kitchen exactly when "gas" occurs in the kitchen type in some letter case |
| HoodCalc.GasInAnyCase | src/lib/hoodCalc.ts:133 | "gas", "Gas" or "GAS" anywhere in the kitchen type makes it a gas kitchen |
| HoodCalc.HeightOutsideRecommended | src/lib/hoodCalc.ts:131-134 | out of range exactly outside 0.7–0.8 m for a gas kitchen and 0.65–0.75 m otherwise; below 0.65 or above 0.8 always out, 0.7–0.75 never |
| HoodCalc.ComputeAll | src/lib/hoodCalc.ts:128-164 | the step-by-step result equals `ResultsFor`: Q is the margined design-or-perimeter flow, and each figure is its helper applied to Q and the inputs |
| HoodCalc.AdvisoryExactlyWhenOutOfRange | src/lib/hoodCalc.ts:131-138 | exactly one advisory when the height is outside 0.7–0.8 m (gas kitchen) or 0.65–0.75 m (other kitchens), none otherwise |
| HoodCalc.LossesIndependentOfFlow | src/lib/hoodCalc.ts:140-151 | design flow and margin do not affect Leq or the total loss; extra filter loss passes one-for-one into the total |
| JsMath.Round | src/lib/tevexMotorRules.ts:6 | the result is the nearest integer, halves rounded up |
| JsMath.Ceil | src/lib/hoodCalc.ts:91-92 | the result is the least integer not below x |
| IndexPage.FindFilter | src/pages/Index.tsx:41 | a found filter is a catalogue entry with the chosen name; nothing is found exactly when no name is chosen or no entry has it |
| IndexPage.FindFilterIsFirst | src/pages/Index.tsx:41 | the entry found is the first one with the chosen name |
| IndexPage.SelectedFiltroByName | src/pages/Index.tsx:41 | choosing a catalogue model selects that very entry |
| IndexPage.Min | src/pages/Index.tsx:60 | `Math.min`: a lower bound of both that is one of them |
| IndexPage.FilterDp | src/pages/Index.tsx:63-66 | 0 without an active filter; with a non-negative user clean-filter drop, at least that drop plus the carbon stage; the carbon stage alone when no clean-filter drop is known |
| IndexPage.AdaptedInput | src/pages/Index.tsx:59-72 | only the design flow and the filter loss change; the filter loss grows by the filter drop; an inactive filter keeps the design flow; an active one sets a design flow whose margined value is within the filter maximum |
| IndexPage.Derive | src/pages/Index.tsx:53-76 | the flow is reported as clamped only when the filter takes part |
| IndexPage.InactiveFilterPassesThrough | src/pages/Index.tsx:59-75 | with the filter off or none selected, `computeAll` gets the form data unchanged, nothing is clamped and the filter drop is 0 |
| IndexPage.ActiveFilterCapsFlow | src/pages/Index.tsx:57-74 | with an active filter and margin > -100%, the result flow is min(margined flow, filter maximum), so never above the maximum |
| IndexPage.ClampedExactlyWhenExceeding | src/pages/Index.tsx:75 | clamped exactly when the filter is on, a model is selected and the margined flow exceeds its maximum |
| IndexPage.FilterDpParts | src/pages/Index.tsx:63-66 | drop = (user value ?? catalogue clean drop ?? 0)·(1.5 if dirty) + carbon drop; dirty minus clean is half the clean-filter part only |
| IndexPage.CatalogueFilterDpIsCarbonOnly | src/pages/Index.tsx:63-66 | without a user value every catalogue filter adds exactly 120 Pa, dirty or clean |
| IndexPage.FilterRaisesTotalLoss | src/pages/Index.tsx:63-74 | the total loss with the filter is the unfiltered total plus the filter drop |
| IndexPage.SetFieldTouchesOneField | src/pages/Index.tsx:77-79 | setting a field gives it the new value and leaves every other field as it was |
| IndexPage.SetAccessoryTouchesOneCount | src/pages/Index.tsx:81-83 | setting one accessory count changes that count only, and no other field |
| IndexPage.ResetCaptureVelocity | src/pages/Index.tsx:46-51 | the effect is the one-field update of Vap to 0.3 m/s (wall hood) or 0.25 m/s (island hood) |
| IndexPage.DefaultScenario | src/pages/Index.tsx:19-36 | the initial form: 4536 m³/h, 5216.4 m³/h with the 15% margin, Leq 21.5 m, total loss 151.5 Pa, no advisory, no rectangular velocity |
| IndexPage.FreshFormFigures | src/pages/Index.tsx:34-76 | a form as the constructor leaves it renders Q 5216.4 m³/h, Leq 21.5 m, 151.5 Pa, no advisory, no Vrect, no clamp and no filter drop |
| IndexPage.HoodForm.constructor | src/pages/Index.tsx:19-43 | the page starts with the default data, the filter off, no model, no user drop and a clean filter |
| IndexPage.HoodForm.OnChange | src/pages/Index.tsx:77-79 | the data becomes the one-field update of the old data; the filter state is unchanged |
| IndexPage.HoodForm.OnAccessoryChange | src/pages/Index.tsx:81-83 | only the chosen accessory count changes; the filter state is unchanged |
| IndexPage.HoodForm.CaptureVelocityEffect | src/pages/Index.tsx:46-51 | the data becomes `ResetCaptureVelocity` of the old data; the filter state is unchanged |
| ElectroFilters.CatalogueFacts | src/lib/electroFilters.ts:14-63 | four units with distinct names, positive maximum flow and power, 120 Pa carbon drop, no clean drop, equal collars, fans of the fan catalogue |
| Validation.CheckIssues | src/lib/validation.ts:5-42 | one field check reports an issue exactly when it fails, at most one, on its own path |
| Validation.SchemaChecks | src/lib/validation.ts:5-42 | one check per constrained field, on the schema's paths in order |
| Validation.DimensionsNotChecked | src/lib/validation.ts:29-30 | the schema never reports the duct dimensions |
| Validation.NoIssuesIffConforms | src/lib/validation.ts:5-42 | the schema reports no issue exactly when every bound holds (L, F 0.5–5; height 0.5–2.5; Vap 0.1–0.5; length 0–200; Vd 5–15; margin 0–50; friction 0.1–5; losses and counts ≥ 0; non-empty texts) |
| Validation.IssuePathsDistinct | src/lib/validation.ts:5-42 | no two issues share a path, and each path is a constrained field |
| Validation.RecordedEntries | src/lib/validation.ts:61-66 | the record has a key for exactly the reported paths, each with its issue's message when the paths are distinct |
| Validation.RecordIssues | src/lib/validation.ts:61-66 | the issue loop builds exactly the record of the issues |
| Validation.RecordedOmitsDimensions | src/lib/validation.ts:29-30 | the record of the schema's issues has no entry for either duct dimension |
| Validation.FieldErrorsKeys | src/lib/validation.ts:61-82 | field errors name exactly the rejected fields, plus both dimensions when a rectangular duct lacks them (none for a circular duct) |
| Validation.FieldErrors | src/lib/validation.ts:61-82 | there is an entry under each duct dimension exactly when a rectangular duct lacks a usable width or height |
| Validation.IssuesOfPathsIff | src/lib/validation.ts:5-42 | a field is reported exactly when one of the checks on it fails |
| Validation.FieldRejectedAt | src/lib/validation.ts:61-66 | the k-th schema field has a field error exactly when its check fails |
| Validation.PathRejected | src/lib/validation.ts:5-42 | over checks on distinct fields, a field is reported exactly when its own check fails |
| Validation.HoodFieldErrors | src/lib/validation.ts:7-18 | "L", "F", "alturaInstalacion", "tipoCocina", "velocidadCaptura" have an error exactly outside 0.5–5, 0.5–5, 0.5–2.5, when empty, and outside 0.1–0.5 |
| Validation.DuctFieldErrors | src/lib/validation.ts:20-27 | "longitudConducto" has an error exactly outside 0–200, each accessory count exactly when negative |
| Validation.LossFieldErrors | src/lib/validation.ts:31-41 | "lugarExpulsion" exactly when empty; "velocidadDucto" outside 5–15; "margenCaudalPct" outside 0–50; "friccionPaPorM" outside 0.1–5; each fixed loss exactly when negative |
| Validation.FieldErrorsMessages | src/lib/validation.ts:61-66 | each rejected field carries the schema's message |
| Validation.MissingDimensionsRequired | src/lib/validation.ts:76-82 | missing or non-positive rectangular dimensions carry "Requerido" under both keys |
| Validation.InlineFlowMatchesCalculator | src/lib/validation.ts:87-92 | the flow validation computes inline is the calculator's margined design-or-perimeter flow |
| Validation.ValidateInput | src/lib/validation.ts:52-102 | field errors as `FieldErrors`; one height warning exactly when out of range; `QpreMargin` exactly with an active filter; one form error exactly when the flow exceeds it; the Δp options play no part |
| Validation.WarningMatchesAdvisory | src/lib/validation.ts:68-74 | the height warning appears exactly when `computeAll` gives its advisory |
| Validation.ExceedsFilterMatchesClamp | src/lib/validation.ts:93-98 | validation flags the flow exactly when the page reports it clamped to that filter |
| Validation.ConformingDataBounds | src/lib/validation.ts:5-42 | conforming data has Vd ≥ 5 m/s and, without a design flow, needs at least 540 m³/h |
| Validation.DimensionsGiveVelocity | src/lib/validation.ts:76-82 | dimensions validation accepts always give `computeAll` a rectangular velocity |
| Budget.Priced | src/lib/budget.ts:34-37 | the pushed line has a subtotal exactly when it has a unit price, and then it is quantity × price |
| Budget.LineFor | src/lib/budget.ts:40-69 | unit "m" for the duct and "ud" otherwise; a non-negative duct quantity; quantity 1 for terminal, fan and filter; a subtotal exactly with a price, equal to quantity × price; no price without a catalogue |
| Budget.Lines | src/lib/budget.ts:39-69 | every line is the line of a present code; at most nine lines |
| Budget.LinesAreLineFor | src/lib/budget.ts:39-69 | every line of a run of codes is the line of one of its present codes |
| Budget.LinesUnrolled | src/lib/budget.ts:39-69 | the bill is built by considering, in this order, the duct, 90° elbows, 45° elbows, transitions, grilles, dampers, terminal, fan and filter, each adding its line when present |
| Budget.SumItems | src/lib/budget.ts:71 | the `reduce` is the sum of the subtotals, a missing one counting 0 |
| Budget.PushAccessoryLines | src/lib/budget.ts:50-55 | one line per non-zero accessory count, in the bill's order |
| Budget.PushSelectionLines | src/lib/budget.ts:57-69 | one line each for a given terminal, fan and filter name |
| Budget.ComputeBOM | src/lib/budget.ts:32-73 | the items are the bill's lines and the total is the sum of their subtotals |
| Budget.LinesForCodes | src/lib/budget.ts:40-69 | a run of codes yields a line for exactly its present codes, no more lines than codes |
| Budget.LinesForAscending | src/lib/budget.ts:40-69 | the lines keep the order of the codes |
| Budget.LineCodes | src/lib/budget.ts:40-69 | a line exists exactly for a positive duct length, each non-zero count and each given name; fixed order; at most 9 lines |
| Budget.SubtotalsArePriced | src/lib/budget.ts:34-37 | every line's subtotal exists exactly when its unit price does, and equals quantity × price |
| Budget.SumSubtotalsAppend | src/lib/budget.ts:71 | the total of two runs of lines is the sum of their totals |
| Budget.TotalByCode | src/lib/budget.ts:71 | the total is the sum, code by code, of what each present priced line adds |
| Budget.NoCatalogueNoCost | src/lib/budget.ts:32-73 | without a price catalogue no line has a subtotal and the total is 0 |
| Budget.NoCatalogueNoLinePrice | src/lib/budget.ts:34-69 | without a price catalogue no line gets a subtotal |
| Budget.TotalWithFullPrices | src/lib/budget.ts:40-71 | with all duct and accessory prices and no selections, total = max(0, length)·duct price + Σ count·price |
| Budget.FullPriceContributions | src/lib/budget.ts:40-69 | with all duct and accessory prices and no selections, each code's share of the total |
| Budget.DuctLineContents | src/lib/budget.ts:40-48 | for a positive length the first line is the duct, in metres, quantity = length, the duct price; "(según plano)" exactly without a diameter |
| Budget.AccessoryLineContents | src/lib/budget.ts:50-55 | each accessory line is in units, bills its non-zero count, and carries the catalogue price of that accessory |
| Budget.SelectionLineContents | src/lib/budget.ts:57-69 | the terminal, fan and filter lines bill 1 unit of the given name, priced at the terminal price or at the price the fan or filter table lists for that model |
| Budget.LinesForAppend | src/lib/budget.ts:40-69 | the lines of two runs of codes are those of the first then those of the second |
| TevexMotorRules.Nearer | src/lib/tevexMotorRules.ts:10 | the step keeps one of its two candidates, the nearer of the two |
| TevexMotorRules.ReduceNearest | src/lib/tevexMotorRules.ts:10 | the reduction returns the start or a candidate, no farther than any of them |
| TevexMotorRules.NearestFondo | src/lib/tevexMotorRules.ts:9-10 | the normalised depth is one of 800/1000/1200 mm and nearest to the depth |
| TevexMotorRules.NearestFondoBands | src/lib/tevexMotorRules.ts:9-10 | 800 up to 900 mm, 1000 above 900 up to 1100, 1200 above 1100: ties go to the smaller depth |
| TevexMotorRules.SelectMotorForMonoblock | src/lib/tevexMotorRules.ts:5-25 | a motor exactly when round(length·1000) ≤ 3000, always a vendor motor |
| TevexMotorRules.MotorsInCatalogue | src/data/tevex.ts:75-95 | every motor the rules can name is in the vendor's motor list |
| TevexMotorRules.Tier | src/lib/tevexMotorRules.ts:20-24 | the tier t of a length in mm: the first t limits (1000, 1500, 2500, 3000) lie below it and the others at or above it |
| TevexMotorRules.CountBelow | src/lib/tevexMotorRules.ts:20-24 | for ascending limits, the count splits them: those before it lie below the length, the rest at or above it |
| TevexMotorRules.LengthMm | src/lib/tevexMotorRules.ts:6 | within half a millimetre of the length × 1000 |
| TevexMotorRules.CountBelowMonotone | src/lib/tevexMotorRules.ts:20-24 | a longer hood never counts fewer exceeded limits |
| TevexMotorRules.LengthMmMonotone | src/lib/tevexMotorRules.ts:6 | rounding to millimetres keeps the order of lengths |
| TevexMotorRules.StandardTierMotor | src/lib/tevexMotorRules.ts:18-24 | outside the 400º variant: ≤1000 → 9/9 1/3 CV, ≤1500 → 9/9 1/2 CV, ≤2500 → 9/9 3/4 CV, ≤3000 → 10/10 1 CV, longer → none |
| TevexMotorRules.TierMonotoneInLength | src/lib/tevexMotorRules.ts:6-24 | the tier grows with the hood length |
| TevexMotorRules.Homologada400Motor | src/lib/tevexMotorRules.ts:13-16 | the 400º variant gives "TMI 400º/2H 9/9 3/4 CV (II)" up to 3000 mm and none beyond |
| TevexMotorRules.IndependentOfModelAndDepth | src/lib/tevexMotorRules.ts:5-10 | neither the hood model nor the depth affects the motor |
| TevexCsv.KeepNumberChars | src/lib/tevexCsv.ts:40 | the filter keeps only digits, points and commas, all taken from the input |
| TevexCsv.DecimalReal | src/lib/tevexCsv.ts:41 | the value of `ip.fp` lies in [ip, ip + 1) |
| TevexCsv.ParseFloat | src/lib/tevexCsv.ts:41 | a number exactly when the text starts with a digit, or with a point then a digit; never negative |
| TevexCsv.ParseNumberLike | src/lib/tevexCsv.ts:38-43 | absent input gives no number; a number found is ≥ 0 and the input holds a digit |
| TevexCsv.KeepNumberCharsAppend | src/lib/tevexCsv.ts:40 | the filter distributes over concatenation |
| TevexCsv.KeepNumberCharsIdempotent | src/lib/tevexCsv.ts:40 | filtering twice is filtering once |
| TevexCsv.NumberAmidText | src/lib/tevexCsv.ts:38-43 | a whole number with digit-free text around it ("1200 mm") reads back as that number |
| TevexCsv.DecimalCommaRead | src/lib/tevexCsv.ts:38-43 | a decimal-comma number "ip,fp" reads back as the value of ip.fp |
| TevexCsv.ParseFloatLongestPrefix | src/lib/tevexCsv.ts:41 | "ip.fp" followed by anything but a digit reads as ip.fp: the number ends at the first character that cannot continue it |
| TevexCsv.ParseFloatWholePrefix | src/lib/tevexCsv.ts:41 | digits followed by neither a digit nor a point read as that whole number |
| TevexCsv.ThousandsPointRead | src/lib/tevexCsv.ts:38-43 | "ip.fp,fp2" (such as "1.234,5") reads as ip.fp: the point stays the decimal point, and the comma, turned into a second point, ends the number |
| TevexCsv.ThousandsFiltered | src/lib/tevexCsv.ts:40 | "ip.fp,fp2" survives the character filter whole and its comma becomes a second point |
| TevexCsv.FirstCommaBecomesPoint | src/lib/tevexCsv.ts:40 | only the first comma becomes a point |
| TevexCsv.KeepNumberCharsUntouched | src/lib/tevexCsv.ts:40 | text of digits, points and commas passes the filter unchanged |
| TevexCsv.CellNumber | src/lib/tevexCsv.ts:38-43 | a cell holding just a whole number reads as that number |
| TevexCsv.ParseNumberLikeEmpty | src/lib/tevexCsv.ts:38-43 | an empty cell holds no number |
| TevexCsv.FirstDepthMatch | src/lib/tevexCsv.ts:49 | the leftmost position with two digits, and the longest digit run there of 2 to 4 |
| TevexCsv.RemoveSeparators | src/lib/tevexCsv.ts:52 | no ':', '-', '–' or '•' is left, and text without them is left as it is |
| TevexCsv.DepthMatch | src/lib/tevexCsv.ts:49 | the match is 2–4 digits, empty exactly when no two digits stand side by side, and otherwise exactly the digits at the first match |
| TevexCsv.ExtractFondoYReferencia | src/lib/tevexCsv.ts:45-54 | blank or absent input gives nothing; otherwise the depth is present exactly with a match and is the value of the matched digits, below 10000, and the reference is that of the trimmed cell with the match cut out |
| TevexCsv.Referencia | src/lib/tevexCsv.ts:52-53 | what is left is trimmed, separator-free and non-empty, or absent |
| TevexCsv.DepthFoundIffTwoDigits | src/lib/tevexCsv.ts:47-50 | a depth is found exactly when the trimmed text has two adjacent digits |
| TevexCsv.MatchIsFirstOccurrence | src/lib/tevexCsv.ts:52 | the string `replace` cuts out exactly the matched digits |
| TevexCsv.DepthMatchOfNumber | src/lib/tevexCsv.ts:49 | a run of 2–4 digits is matched whole |
| TevexCsv.DepthRoundTrip | src/lib/tevexCsv.ts:45-54 | a cell holding just a 2- to 4-digit number gives that depth and no reference |
| TevexCsv.Cut | src/lib/tevexCsv.ts:52 | the cell with the match cut out is shorter by exactly the match |
| TevexCsv.CutMatch | src/lib/tevexCsv.ts:52 | `replace` with the matched digits cuts out exactly the first match; with no match the empty pattern changes nothing |
| TevexCsv.ReplaceEmpty | src/lib/tevexCsv.ts:52 | replacing an empty pattern by "" changes nothing |
| TevexCsv.DepthAmidText | src/lib/tevexCsv.ts:45-54 | a 2–4 digit depth amid digit-free text ("F 800 mm") reads as that depth, with the text around it, cleaned, as the reference |
| TevexCsv.DepthMatchAmid | src/lib/tevexCsv.ts:49-52 | 2–4 digits amid digit-free text are the match, and cutting them out leaves the text around them |
| TevexCsv.ExtractOfMatch | src/lib/tevexCsv.ts:45-54 | a trimmed cell gives the depth its match spells and the reference of the cell with the match cut out |
| TevexCsv.DigitsAmidText | src/lib/tevexCsv.ts:49-52 | 2–4 digits amid digit-free text are the first match, and cutting them out leaves the text around them |
| TevexCsv.FirstMatchAmid | src/lib/tevexCsv.ts:49 | 2–4 digits with no digit before them and none right after them are the first match, whole |
| TevexCsv.FirstDepthMatchAt | src/lib/tevexCsv.ts:49 | the search stops at the first position holding two digits |
| TevexCsv.DigitRunOf | src/lib/tevexCsv.ts:49 | a digit run that ends the text, meets a non-digit or fills the cap is counted whole |
| TevexCsv.RemoveSeparatorsAppend | src/lib/tevexCsv.ts:52 | the separator filter distributes over concatenation |
| TevexCsv.ReferenciaDropsSeparator | src/lib/tevexCsv.ts:52 | a separator anywhere in the rest of the cell is dropped from the reference |
| TevexCsv.ReferenciaOfClean | src/lib/tevexCsv.ts:52-53 | a trimmed, non-empty rest without separators is the reference as it stands |
| TevexCsv.KeepNameChars | src/lib/tevexCsv.ts:33 | only `A-Z0-9/-.` and space are kept |
| TevexCsv.AsciiStage | src/lib/tevexCsv.ts:32-35 | the name is tidy: name characters only, single spaces, none at either end |
| TevexCsv.TrimKeepsTidy | src/lib/tevexCsv.ts:34-35 | trimming a single-spaced name-character string leaves it tidy |
| TevexCsv.CollapseUntouched | src/lib/tevexCsv.ts:34 | collapsing leaves a single-spaced string as it is |
| TevexCsv.AsciiStageIdempotent | src/lib/tevexCsv.ts:32-35 | the stage applied to its own output changes nothing |
| TevexCsv.TidyUntouched | src/lib/tevexCsv.ts:32-35 | a name of name characters, single-spaced and trimmed, passes through the stage unchanged |
| TevexCsv.AsciiStageOfLower | src/lib/tevexCsv.ts:32-35 | such a name written in lower case comes back as it was |
| TevexCsv.AsciiStageDropsChar | src/lib/tevexCsv.ts:32-33 | a character that is not a name character once upper-cased is dropped wherever it stands |
| TevexCsv.KeepNameCharsAppend | src/lib/tevexCsv.ts:33 | the filter distributes over concatenation |
| TevexCsv.KeepNameCharsSingle | src/lib/tevexCsv.ts:33 | one character is kept exactly when it is a name character |
| TevexCsv.ReplaceFffd | src/lib/tevexCsv.ts:18 | same length; every U+FFFD becomes 'O' and every other character stays |
| TevexCsv.StripAfterNormalize | src/lib/tevexCsv.ts:17-35 | the cleaned name is tidy and holds no U+FFFD |
| TevexCsv.ReplacementCharReadsAsO | src/lib/tevexCsv.ts:18-33 | a U+FFFD anywhere reads as 'O' ("\uFFFDPTIMA" gives "OPTIMA"), where the ASCII stage alone drops it |
| TevexCsv.DropCR | src/lib/tevexCsv.ts:118 | a piece loses only a final carriage return |
| TevexCsv.Pieces | src/lib/tevexCsv.ts:118 | at least one piece, none holding a line feed |
| TevexCsv.PiecesJoin | src/lib/tevexCsv.ts:118 | for text without carriage returns, joining the pieces with line feeds gives the text back |
| TevexCsv.NonEmpty | src/lib/tevexCsv.ts:118 | `filter(Boolean)` keeps only non-empty pieces, no more than there were |
| TevexCsv.NonEmptyKeepsPieces | src/lib/tevexCsv.ts:118 | every kept piece is one of the input pieces |
| TevexCsv.SplitLines | src/lib/tevexCsv.ts:118 | every line is non-empty and holds no line feed |
| TevexCsv.NonEmptyAppend | src/lib/tevexCsv.ts:118 | `filter(Boolean)` distributes over concatenation, so it keeps the order of the pieces |
| TevexCsv.NonEmptySingle | src/lib/tevexCsv.ts:118 | one piece is kept exactly when it is not empty |
| TevexCsv.NonEmptyUntouched | src/lib/tevexCsv.ts:118 | pieces none of which is empty are all kept |
| TevexCsv.SplitJoinLines | src/lib/tevexCsv.ts:118 | non-empty lines without line feeds or carriage returns, joined with "\n", split back into the same lines |
| TevexCsv.PiecesOfJoin | src/lib/tevexCsv.ts:118 | splitting lines joined with "\n" gives the lines |
| TevexCsv.FirstNewline | src/lib/tevexCsv.ts:118 | the first line feed of a + "\n" + b is the one after a, when a has none |
| TevexCsv.Column | src/lib/tevexCsv.ts:143-147 | a column is no wider than its slice and trimmed |
| TevexCsv.ColumnOfPadded | src/lib/tevexCsv.ts:143-147 | a trimmed value written at its column start and padded with spaces to the column end, or to the line end, reads back as that value |
| TevexCsv.IsHeaderOrBlank | src/lib/tevexCsv.ts:131 | a line of white space is skipped; a skipped line with other characters names "MODELO", "ANCHO" or "FILTROS" |
| TevexCsv.HeaderLineSkipped | src/lib/tevexCsv.ts:131-133 | a line naming a column title anywhere yields no entry |
| TevexCsv.LooksHtml | src/lib/tevexCsv.ts:136 | a line that looks like HTML holds a '>' |
| TevexCsv.LooksHtmlOfTag | src/lib/tevexCsv.ts:136 | an "<html" in any letter case, anywhere, with a '>' after it makes the line look like HTML |
| TevexCsv.ParseLine | src/lib/tevexCsv.ts:129-192 | an entry only from a non-header, non-HTML line of ≥ 20 characters, with positive width and depth and a non-empty, trimmed, single-spaced model |
| TevexCsv.ParseLineRoundTrip | src/lib/tevexCsv.ts:129-192 | a row written with a model name (non-empty, trimmed, single-spaced, at most 50 characters, no column title, no '>') padded to column 50, a positive whole width from column 51 and a positive whole depth from column 131 reads back as that model, width and depth, with no filter count or flow |
| TevexCsv.ParseLineFromColumns | src/lib/tevexCsv.ts:129-192 | a data line with a model, a width and a depth and blank filter and flow cells yields exactly that entry |
| TevexCsv.RowColumns | src/lib/tevexCsv.ts:143-147 | the five columns of a written row are the model, the width, blank, blank and the depth |
| TevexCsv.RowIsData | src/lib/tevexCsv.ts:131-138 | a written row is long enough and is neither blank, a header nor HTML |
| TevexCsv.WordNotInTail | src/lib/tevexCsv.ts:131 | a column title not in the model name is not in the written row either |
| TevexCsv.ModelNameTidy | src/lib/tevexCsv.ts:181 | collapsing and trimming a trimmed model keeps it non-empty and single-spaced |
| TevexCsv.LoadTevexHoodsFromText | src/lib/tevexCsv.ts:118-199 | the loop returns exactly the entries of the text's lines, in line order |
| TevexCsv.ParseRow | src/lib/tevexCsv.ts:130-191 | the loop body, with its `continue`s, yields exactly `ParseLine` of the line |
| TevexCsv.FilterMapAppend | src/lib/tevexCsv.ts:128-192 | the results of two blocks of lines are those of the first then those of the second |
| TevexCsv.FilterMapFromLines | src/lib/tevexCsv.ts:128-192 | at most one result per line, each from some line |
| TevexCsv.EntriesAppend | src/lib/tevexCsv.ts:128-192 | the entries keep the order of the lines |
| TevexCsv.EntriesFromLines | src/lib/tevexCsv.ts:128-192 | no more entries than lines; each has positive dimensions and a non-empty, single-spaced model and comes from a non-header line |

## Left out

- The diameter `sqrt(4A/π)` is not evaluated: it is represented by the area it derives from. The text of the fan advice is represented by its two figures. Both are floating-point display matters.
- Floating point: the model computes with exact reals. It has no IEEE rounding, no NaN and no Infinity.
  - A zero duct velocity is excluded by precondition (`ResultsFor`, `ComputeAll`, `Derive` and the lemmas about them).
  - In the filter adapter, a margin factor of 0 gives NaN or -Infinity in the source, which `computeAll` ignores. It is modelled as no design flow.
  - `parseFloat` results large enough to overflow to Infinity are not modelled.
- Zod's handling of wrong types (NaN, strings in number fields) is not modelled. The model's types admit only well-typed values. Issue messages are carried as given text, and the order in which zod reports issues follows the schema's field order.
- The wording of the filter form error and of the height warnings is represented by their figures and the kitchen type.
- JavaScript strings count UTF-16 units. Here a character is a Unicode scalar value, so lengths and column offsets differ for characters outside the Basic Multilingual Plane.
- `toUpperCase` is modelled on ASCII letters only. Non-ASCII letters are dropped by the next step either way, except those that upper-case to ASCII letters (such as 'ß' to "SS"), which are not modelled.
- The `normalize('NFD')` step of `stripDiacritics` (src/lib/tevexCsv.ts:15) is left out because it is a library call. `TevexCsv.StripAfterNormalize` takes its output. The empty-class replacements `/[]/g` (src/lib/tevexCsv.ts:19-30) match nothing, so the model has no step for them. The U+FFFD → 'O' replacement (src/lib/tevexCsv.ts:18) is modelled by `TevexCsv.ReplaceFffd`.
- The fetch loop of `loadTevexHoodsFromCsv` (src/lib/tevexCsv.ts:56-116) is left out: network access, retries, HTTP content-type sniffing, the two-line check and `console.log`. The text it loads is the input of `TevexCsv.LoadTevexHoodsFromText`. The `try/catch` around a row catches nothing the model can raise.
- The loader never sets `codigo`, `motor` or `referencia`, so `TevexCsv.HoodCsvEntry` has no such fields.
- The following parts of `src/pages/Index.tsx` are user interface and I/O and are left out: rendering, `exportCSV`, `exportPDF`, toasts and page metadata.
- The following are not part of this model: `src/lib/tevexExcel.ts`, `src/components/FanCurveChart.tsx`, `test-csv.js`, the fan curves, and the other catalogue fields of `src/data/fans.ts` and `src/data/tevex.ts`.
- Price tables are modelled as maps. JavaScript's inherited object keys (`"constructor"`, etc.) are not modelled.
- `computeBOM` is split into three methods: `Budget.ComputeBOM` and two helpers for the accessory lines and the selection lines. They append in the same order as the source.
- IndexPage.Derive: its own contract states only that clamping needs an active filter. The flow, loss and flag outcomes are the lemmas after it.
