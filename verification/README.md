# Hourly-margin calculator: a Dafny model of its computational core

The calculator estimates how much a production line earns per hour. Inputs are a unit margin (currency per thousand units), a line speed (units per minute), a setup time (minutes) and a batch size. The tier-1 ("contribution") margin per hour is

    (unitMargin / 1000) / (1 / (60 * speed) + setup / batch)

It is 0 when speed or batch size is 0. The tier-2 ("EBITDA") margin is the tier-1 margin less a fixed discount. The discount is 317.26 for the plant named exactly `Chillán` and 295.29 for every other plant.

For every selected (plant, line), the dashboard draws two sensitivity charts:

- tier-2 margin against 50 evenly spaced unit margins, from 0.5 to 1.5 times the current value;
- tier-2 margin against 50 evenly spaced batch sizes, from 0.5 to 4 times the current value.

Each chart has a centre line and a band. The band's lower curve pairs a lowered speed with a raised setup time; its upper curve pairs a raised speed with a lowered setup time. A session-wide parameter store keeps each (plant, line)'s base speed and setup time, copied once from a 12-row seed table, plus the adjusted values that two percentage sliders recompute from the base.

All quantities are exact `real`s. Slider percentages are `int`s, as the sliders step by 1.

Modules:

- `MarginEngine` (margin_engine.dfy): the formula, the discount and tier 2.
- `Percent` (percent.dfy): scaling a value by a signed whole percentage, shared by the band and the slider callbacks.
- `MarginLaws` and `MarginMonotonicity` (margin_laws.dfy): the guard, the closed form, linearity and monotonicity.
- `Sweep` (sweep.dfy): evenly spaced domains, the band and both charts.
- `SweepLaws` and `BandLaws` (sweep_laws.dfy): domain shape, band ordering and where the highlighted point lies.
- `ParameterStore` (parameter_store.dfy): the seed table, initialisation and the two slider callbacks.
- `StoreLaws` (store_laws.dfy): properties of the store.
- `Dashboard` (dashboard.dfy): the calculation pass over the selection.
- `DashboardLaws` (dashboard_laws.dfy): its end-to-end properties.
- `Export` and `ExportLaws` (export.dfy): the column block of the downloadable table, as written and as corrected.
- `Options` (options.dfy): the optional value used for lookups that can miss.

The speed and setup number boxes next to the sliders (calculo_margenhora.py:119-124, 131-136) are displayed but never read. The calculation reads the adjusted values from session state (calculo_margenhora.py:170-171). So the model's inputs are the stored adjusted values, and the boxes do not appear at all.

## Model

| member | source | states |
|---|---|---|
| MarginEngine.HourlyMargin | calculo_margenhora.py:24-45 | a zero speed or zero batch size yields 0, as a value and not an error, for every unit margin and setup time; a zero unit margin yields 0 |
| MarginLaws.UnitTimePositive | calculo_margenhora.py:32-36 | with speed > 0, batch > 0 and setup >= 0 the unit time is positive, so the `part1 + part2 == 0` fallback cannot fire |
| MarginLaws.DefensiveBranchReachable | calculo_margenhora.py:32-36 | over all reals the fallback is reachable: speed -1/60, setup 1, batch 1 cancel to a zero unit time and the margin is 0 |
| MarginLaws.MarginAsQuotient | calculo_margenhora.py:32-38 | on the normal domain the margin is (unitMargin/1000) divided by a positive unit time |
| MarginLaws.ClosedForm | calculo_margenhora.py:32-38 | on the normal domain the margin equals m·60·speed·batch / (1000·(batch + 60·speed·setup)) |
| MarginLaws.WorkedExample | calculo_margenhora.py:24-38 | inputs (1000, 100, 1, 500) give exactly 6000/13, about 461.54 |
| MarginMonotonicity.LinearInUnitMargin | calculo_margenhora.py:29-38 | on every input the margin is linear in the unit margin: scaling and additivity |
| MarginMonotonicity.NonNegative | calculo_margenhora.py:29-38 | non-negative inputs give a non-negative margin |
| MarginMonotonicity.StrictlyIncreasingInUnitMargin | calculo_margenhora.py:32-38 | with speed > 0, batch > 0 and setup >= 0, a larger unit margin gives a strictly larger margin |
| MarginMonotonicity.MonotoneInSpeed | calculo_margenhora.py:29-38 | a faster line earns at least as much, and strictly more when unit margin and batch are positive; a speed lowered to 0 is included |
| MarginMonotonicity.AntitoneInSetup | calculo_margenhora.py:32-38 | a longer setup earns at most as much, and strictly less when unit margin, speed and batch are positive |
| MarginMonotonicity.MonotoneInBatch | calculo_margenhora.py:29-38 | a larger batch earns at least as much, strictly more when unit margin, speed and setup are positive, and strictly more than a zero batch whenever unit margin and speed are positive |
| MarginMonotonicity.IndependentOfBatchWithoutSetup | calculo_margenhora.py:32-38 | with zero setup every positive batch gives 60·speed·m/1000, so the batch size does not matter |
| MarginEngine.Discount | calculo_margenhora.py:176-181 | the discount is 317.26 exactly when the plant name is `Chillán`, and 295.29 exactly otherwise |
| MarginEngine.Evaluate | calculo_margenhora.py:172-181 | tier 1 is the formula; tier 1 minus tier 2 is the plant's discount, so tier 2 is strictly below tier 1 |
| Sweep.Linspace | calculo_margenhora.py:203 | n points, the first is lo, the last is hi, and consecutive points differ by (hi-lo)/(n-1) |
| SweepLaws.LinspaceOrder | calculo_margenhora.py:203 | for lo <= hi every point lies in [lo, hi]; for lo < hi the points strictly increase; for lo = hi they all equal lo |
| SweepLaws.MarginDomainShape | calculo_margenhora.py:203 | the unit-margin axis runs from 0.5·m to 1.5·m in steps of m/49; it strictly increases for m > 0, is all 0 for m = 0, and is non-negative for m >= 0 |
| SweepLaws.BatchDomainShape | calculo_margenhora.py:215 | the batch axis runs from 0.5·b to 4·b in steps of b/14; it strictly increases for b > 0, is all 0 for b = 0, and is non-negative for b >= 0 |
| Sweep.Variation | calculo_margenhora.py:204-207 | the low and high speeds, and the low and high setup times, are symmetric about the current value, and each pair spans twice the value times its percentage |
| Sweep.MarginSweep | calculo_margenhora.py:203-212 | four aligned 50-point series over the unit-margin axis; at each point the centre is tier 2 at the current speed and setup, the lower curve at (low speed, high setup), the upper at (high speed, low setup); the highlighted point is (current unit margin, current tier-2 margin) |
| Sweep.BatchSweep | calculo_margenhora.py:215-219 | four aligned 50-point series over the batch axis, with the same centre, lower and upper pairings at each batch size; the highlighted point is (current batch, current tier-2 margin) |
| BandLaws.VariationBrackets | calculo_margenhora.py:204-207 | with variations in [0, 100] percent: 0 <= low speed <= speed <= high speed, and 0 <= low setup <= setup <= high setup |
| BandLaws.PairingOrdered | calculo_margenhora.py:210-212 | at one x value: (low speed, high setup) <= current inputs <= (high speed, low setup) |
| BandLaws.MarginSweepBandOrdered | calculo_margenhora.py:203-212 | on the unit-margin chart, with non-negative inputs and variations in [0, 100]: bandMin <= center <= bandMax at every index |
| BandLaws.BatchSweepBandOrdered | calculo_margenhora.py:215-219 | the same band ordering on the batch chart |
| BandLaws.FullSpeedVariationFloorsBand | calculo_margenhora.py:204-219 | at a 100 percent speed variation the low speed is 0, so the zero guard makes the lower curve exactly minus the discount on both charts |
| BandLaws.NoVariationCollapsesBand | calculo_margenhora.py:204-219 | with both variations at 0 the lower and upper curves equal the centre line |
| BandLaws.MarginHighlightOnCenter | calculo_margenhora.py:203-242 | the highlighted point of the unit-margin chart is the midpoint of axis points 24 and 25 and of centre values 24 and 25, so it lies on the centre line |
| BandLaws.BatchHighlightOnCenter | calculo_margenhora.py:215-251 | batch-axis point 7 is the current batch, and centre value 7 is the highlighted point |
| BandLaws.MarginCenterIncreasing | calculo_margenhora.py:203-212 | with m, speed and batch positive, the unit-margin chart's centre line strictly increases |
| BandLaws.BatchCenterShape | calculo_margenhora.py:215-219 | the batch chart's centre line strictly increases when setup > 0, and is flat at the highlighted value when setup = 0 |
| ParameterStore.FindSeed | calculo_margenhora.py:52 | finds a row exactly when some row matches (plant, line), and returns the first such row |
| ParameterStore.Fresh | calculo_margenhora.py:53-56 | a fresh entry has adjusted speed = base speed = seed speed, and adjusted setup = base setup = seed setup |
| ParameterStore.Initialise | calculo_margenhora.py:48-56 | keeps every existing entry; adds only entries of this plant's listed lines, each fresh from its seed row; succeeds with every listed line present, or names a listed line with no entry and no seed row, every line listed before it keeping or gaining an entry and no line listed at or after it gaining one, so the named line is the first one that fails and nothing past it is written |
| ParameterStore.UpdateSpeed | calculo_margenhora.py:58-62 | fails exactly for an uninitialised line; otherwise sets adjusted speed = base·(1+pct/100) and leaves both base values, the adjusted setup and all other entries unchanged |
| ParameterStore.UpdateSetup | calculo_margenhora.py:64-68 | symmetric to UpdateSpeed, for the setup time |
| StoreLaws.SeedTableWellFormed | calculo_margenhora.py:17-22 | twelve rows over three plants, all speeds and setup times positive, no (plant, line) pair twice |
| StoreLaws.FindSeedFirstMatch | calculo_margenhora.py:52 | the lookup returns the row at the first matching index |
| StoreLaws.InitialiseSucceedsIff | calculo_margenhora.py:48-56 | initialisation succeeds exactly when every listed line is already present or has a seed row |
| StoreLaws.AbortSkipsLaterLines | calculo_margenhora.py:50-56 | with lines A then B and a seed row only for B, initialisation names A and writes nothing, B included |
| StoreLaws.InitialiseStable | calculo_margenhora.py:50-51 | starting from any store between the original and a first run's result reproduces that result |
| StoreLaws.InitialiseIdempotent | calculo_margenhora.py:48-56 | a second initialisation with the same lines changes nothing and ends the same way |
| StoreLaws.SeededLinesInitialise | calculo_margenhora.py:104-115 | lines taken from the seed table always initialise, from any store |
| StoreLaws.FreshExplained | calculo_margenhora.py:53-56 | a fresh entry satisfies the store invariant with both sliders at 0 percent |
| StoreLaws.UpdatesKeepExplained | calculo_margenhora.py:58-68 | each slider update re-establishes the invariant "adjusted = base scaled by the slider's current percentage" |
| StoreLaws.LastUpdateWins | calculo_margenhora.py:58-68 | updates do not compound: two updates in a row equal the last one alone |
| StoreLaws.UpdatesCommute | calculo_margenhora.py:58-68 | the speed and setup updates commute |
| StoreLaws.SpeedAdjustmentBounds | calculo_margenhora.py:125-130 | for a speed percentage in [0, 100]: base <= adjusted speed <= 2·base |
| StoreLaws.SetupAdjustmentBounds | calculo_margenhora.py:137-142 | for a setup percentage in [-100, 0]: 0 <= adjusted setup <= base |
| Dashboard.CalculateLine | calculo_margenhora.py:168-181 | fails exactly for an uninitialised line; otherwise the margins come from the adjusted values, and both charts are the sweeps at the adjusted speed and setup with the global unit margin, batch and variation percentages |
| Dashboard.CalculatePlant | calculo_margenhora.py:169-172 | one report per listed line, in order, each equal to that line's calculation; fails exactly when some listed line is uninitialised |
| Dashboard.Pairs | calculo_margenhora.py:168-169 | the selected (plant, line) pairs, plant by plant and line by line, one per selected line |
| Dashboard.CalculateSelection | calculo_margenhora.py:165-172 | succeeds exactly when every selected line is initialised; then report k is the calculation for the k-th selected pair, plant by plant and line by line |
| Dashboard.InitialiseSelection | calculo_margenhora.py:101-115 | initialising the plants in order keeps every existing entry; every added entry is a selected line, fresh from its seed row; success leaves every selected line present, and failure names a selected line with neither an entry nor a seed row, after every earlier plant and every earlier line of its own plant has an entry, and every added entry belongs to one of those earlier lines |
| DashboardLaws.InitialisedSelectionCalculates | calculo_margenhora.py:155-172 | after a successful initialisation of a selection, the calculation pass that follows succeeds and yields one report per selected line |
| DashboardLaws.AdjustedValuesOnly | calculo_margenhora.py:170-171 | two stores that agree on a line's adjusted values give the same report, whatever their base values |
| DashboardLaws.GuadalajaraL4Seed | calculo_margenhora.py:17-22 | the seed row of Guadalajara L4 is speed 89.68, setup 3.15 |
| DashboardLaws.GuadalajaraL4Init | calculo_margenhora.py:48-56 | initialising Guadalajara L4 in an empty session yields one fresh entry (89.68, 3.15) |
| DashboardLaws.GuadalajaraL4Margin | calculo_margenhora.py:24-38 | the formula at (1000, 89.68, 3.15, 500) is exactly 2690400/17449.52, about 154.18 |
| DashboardLaws.GuadalajaraL4Scenario | calculo_margenhora.py:168-181 | end to end for Guadalajara L4 with untouched sliders: tier 1 is the formula at the seed values, and tier 2 is tier 1 less 295.29 |
| Export.ColumnNamesDistinct | calculo_margenhora.py:224-233 | the eight shared column names are distinct, and the batch-size band names differ from them and from each other |
| Export.BlockAsWritten | calculo_margenhora.py:223-234 | the block has nine columns, not ten; the repeated name holds the batch-size max series; the min series appears only if it equals another column's series |
| ExportLaws.AsWrittenLosesBatchMin | calculo_margenhora.py:217-234 | for any initialised line with positive inputs and a positive speed variation, the batch-size min series differs from the max series that replaces it |
| Export.BlockCorrected | calculo_margenhora.py:223-234 | with distinct min and max names the block has ten columns, and every margin series sits under its own name |

## Left out

- Streamlit widgets: titles, tables, multiselects, sliders, number boxes, buttons, and red/blue colouring of negative values. The model takes the values they supply as parameters.
- Plotly figure construction: rendering only.
- Concatenating the per-line blocks into one table, and CSV encoding: only the column block of one line is modelled.
- Column order: a block is a map from column name to series, so the model keeps which columns exist and what they hold, but not the order in which the DataFrame lists them.
- The progress bar and `time.sleep`: cosmetic.
- The two exception handlers and the `st.error` report: with the guards in place, exact real arithmetic raises nothing. Both handlers return 0, the same value the guards give.
- IEEE floating-point rounding: the model computes exactly and does not claim bit-for-bit agreement with Python floats or `np.linspace`.
- Session-state keys: the dashboard builds them as strings like `base_velocidad_{plant}_{line}`. The model keys entries by the (plant, line) pair. The string keys could collide for names containing `_`; no seed name does.
- The slider widgets' own stored percentages: the invariant `Explained` takes them as parameters.
- Script aborts: an exception (a missing seed row, a read of an uninitialised key) stops the Streamlit run. The model returns `None`, or an `InitOutcome` naming the missing line and keeping the entries written before it.

## Findings

| source | as written | input that shows it | evidently intended | confidence | as-written member | corrected member |
|---|---|---|---|---|---|---|
| calculo_margenhora.py:232-233 | the batch-size min and max series share the column name `Margen Hora  (vs Tamaño de Lote)`, so the dictionary keeps only the max series and the downloaded table has no batch-size min column | any initialised line with positive unit margin, batch and speed and a speed variation above 0 (for example Guadalajara L4, unit margin 1000, batch 500, speed variation 10) | separate min and max columns, as for the unit-margin chart at lines 228-229 | high (not executed) | Export.BlockAsWritten, ExportLaws.AsWrittenLosesBatchMin | Export.BlockCorrected |
