# Sugarcane harvesting model in Dafny

This project models the simulation engine of the sugarcane-harvesting model. A
`width` x `height` field holds one crop patch per cell. The one exception is the
mill's cell `(width - 1, 0)`, which holds no patch. On every step the model
does four things:

1. It draws the rain.
2. It picks as the *best patch* the first patch with the highest mill price
   cached at the end of the previous step.
3. It records the average height, the cashflow and the harvest count.
4. It activates every patch once, in a random order.

When a patch is activated it grows, twice as fast on a wet step, and a dry step
costs 0.3 in irrigation. It then refreshes its mill price. It is harvested when
three things hold: it stands on the best cell, it is at least the minimum
height, and harvesting capacity remains. A harvest cuts height and sugar to 0,
sells at the cached price and costs 0.05. At the end of the step the capacity is
refilled. `run_model` runs 3240 steps and returns the table of recorded rows.

The model also covers the two drawing rules of the grid view: `rgb_to_hex` and
`agent_portrayal`.

Modules:

- `FieldTypes` holds the shared values: positions and the errors a patch step
  can raise.
- `FieldPrice` is the mill-price formula. It includes Python's `round(x, 2)`,
  done exactly on reals, with halves going to even.
- `FieldGrid` is the constructor's layout, which gives ids in x-major order and
  skips the mill cell. It also holds the sequence of cells the nested loops
  visit.
- `FieldSelect` is the "first strictly greatest" rule of `find_best_patch`.
- `FieldMetrics` covers `np.mean` and the metric rows.
- `FieldStep` describes a patch activation and a whole schedule pass as values.
  It also holds an order-free description of a step, and proves that every
  activation order gives that one result.
- `Field` holds the classes `PatchAgent` and `FieldModel`, whose methods update
  their fields as the Python objects do. It also holds `FindBestPatch`,
  `AverageHeight` and `RunModel`.
- `ModelViz` covers `rgb_to_hex` with its inverse, and `agent_portrayal`.

The random draws are parameters:

- the `(sugar, height)` draws of each patch go to the model's constructor;
- the rain draw goes to `FieldModel.Step`;
- the order of the random activation is a permutation argument.

`math.sqrt` is the model's `sqrt` field. It can be any function, so every
proved fact holds whatever square root is used.

## Model

| member | source | states |
|---|---|---|
| `Field.FindBestPatch` | Python/Harvesting_in_Agriculture/FieldModel.py:18-28 | no patches gives `None`; otherwise the position of the patch at `FirstArgmax` of the cached prices (the first strictly greatest), proved with loop invariants over the running maximum that starts at `-inf` |
| `FieldSelect.FirstArgmax` | Python/Harvesting_in_Agriculture/FieldModel.py:23-26 | the index the left-to-right scan keeps, which is always within the list; `FirstArgmaxIsFirst` proves it is the first strictly greatest |
| `FieldSelect.FirstArgmaxIsFirst` | Python/Harvesting_in_Agriculture/FieldModel.py:23-26 | the index the left-to-right scan keeps has no higher price anywhere, and every earlier price is strictly lower |
| `FieldSelect.FirstArgmaxUnique` | Python/Harvesting_in_Agriculture/FieldModel.py:23-26 | only one index satisfies the first-strictly-greatest rule |
| `FieldSelect.AllEqualPicksFirst` | Python/Harvesting_in_Agriculture/FieldModel.py:24-26 | when all prices are equal (as on step one, all 0), the first patch is chosen |
| `Field.AverageHeight` | Python/Harvesting_in_Agriculture/FieldModel.py:30-31 | the mean of the patch heights; no value (numpy's NaN) exactly when there are no patches |
| `FieldMetrics.Mean` | Python/Harvesting_in_Agriculture/FieldModel.py:31 | the mean is undefined exactly on an empty list |
| `FieldMetrics.MeanBounds` | Python/Harvesting_in_Agriculture/FieldModel.py:31 | the mean lies between any lower and upper bound of the values |
| `Field.InitialAverageHeight` | Python/Harvesting_in_Agriculture/FieldModel.py:37 | the first recorded average height lies in the height draw's range [0, 2], and is absent only on an empty field |
| `Field.PatchAgent.constructor` | Python/Harvesting_in_Agriculture/FieldModel.py:34-39 | a new patch keeps its id and model, takes its sugar and height draws, has price 0, and is not yet placed |
| `Field.PatchAgent.CalculatePriceAtMill` | Python/Harvesting_in_Agriculture/FieldModel.py:58-65 | an unplaced patch fails with `UnplacedPatch` (and only an unplaced one). A placed patch is priced by `PriceFormula` of its sugar content and cell, which are the only fields it reads; a patch without sugar is priced 0 |
| `FieldPrice.SquaredDistanceToMill` | Python/Harvesting_in_Agriculture/FieldModel.py:61-63 | the squared distance to the mill at (11, 0) is never negative, and is 0 exactly on the mill's coordinate |
| `FieldPrice.RoundHalfEven` | Python/Harvesting_in_Agriculture/FieldModel.py:65 | `round` on an exact value: within one half, and a tie goes to the even integer |
| `FieldPrice.Round2Properties` | Python/Harvesting_in_Agriculture/FieldModel.py:65 | `round(v, 2)` is a whole number of hundredths, at most 0.005 from `v` |
| `FieldPrice.PriceFormula` | Python/Harvesting_in_Agriculture/FieldModel.py:63-65 | the price `round(14000 * sugar * (1 - d * 0.6 / 16.9), 2)` is 0 when the sugar is 0, whatever the distance |
| `Field.PatchAgent.BeingHarvested` | Python/Harvesting_in_Agriculture/FieldModel.py:67-72 | height and sugar become exactly 0; the count goes up by one; the cashflow gains the cached price less 0.05 |
| `Field.PatchAgent.Step` | Python/Harvesting_in_Agriculture/FieldModel.py:41-56 | without a rain draw it fails and changes nothing; an unplaced patch still grows but stops before pricing, with `UnplacedPatch`; a placed patch ends as `Activate` says of its old state and the old books |
| `FieldStep.Grown` | Python/Harvesting_in_Agriculture/FieldModel.py:42-50 | a wet step adds 0.00246 to height and 0.0001376 to sugar, a dry one 0.00123 and 0.0000688; the cell stays put. Height and sugar that were not negative are positive after growth. The refreshed price is `PriceFormula` of the grown sugar at the patch's cell |
| `FieldStep.Activate` | Python/Harvesting_in_Agriculture/FieldModel.py:41-56 | a harvest happens exactly when the three-part guard holds. Then height and sugar become 0, the price stays, the cashflow gains the growth delta plus the price less 0.05, and one unit of capacity moves to the count. Otherwise only growth and its cashflow delta apply |
| `FieldStep.ApplyOrder` | Python/Harvesting_in_Agriculture/FieldModel.py:110 | `schedule.step()` as a sequential pass that activates `ps[order[0]]`, `ps[order[1]]`, ... in turn. No patch is lost or added; `ApplyOrderBounds` and `StepIsOrderIndependent` state what the pass does |
| `FieldStep.HarvestGuard` | Python/Harvesting_in_Agriculture/FieldModel.py:52-54 | no harvest off the best cell, below the minimum height, or without capacity left |
| `FieldStep.Cut` | Python/Harvesting_in_Agriculture/FieldModel.py:68-69 | a cut patch keeps its cell and its cached price, and its height and sugar are exactly 0 |
| `FieldStep.ApplyOrderBounds` | Python/Harvesting_in_Agriculture/FieldModel.py:52-56 | at every point of a schedule pass: no patch has moved, count plus capacity is unchanged, the count never falls, and a capacity starting at 0 or more never goes negative |
| `FieldStep.HarvestedIndex` | Python/Harvesting_in_Agriculture/FieldModel.py:52-54 | the patch a step can harvest meets the guard; when no two patches share a cell, it is the only patch that can |
| `FieldStep.StepPatches` | Python/Harvesting_in_Agriculture/FieldModel.py:41-56 | the step, free of order, keeps every patch on its cell. A patch that starts with no negative height or sugar keeps none. It ends with both at 0 exactly when it met `HarvestGuard` after growing |
| `FieldStep.StepBooks` | Python/Harvesting_in_Agriculture/FieldModel.py:48-72 | a step harvests at most one patch, and does exactly when `HarvestedIndex` finds one. The cashflow changes by the total irrigation bill, plus the price less 0.05 on a harvest. Count plus capacity is kept |
| `FieldStep.StepIsOrderIndependent` | Python/Harvesting_in_Agriculture/FieldModel.py:110 | when no two patches share a cell, activating every patch once in any permutation gives `StepPatches` and `StepBooks` |
| `Field.FieldModel.constructor` | Python/Harvesting_in_Agriculture/FieldModel.py:75-99 | the settings and starting books (cashflow 1000000, no harvests, full capacity, no rain, no best patch) are stored, with empty collector tables. There is one fresh patch per id `i < width * height - 1`, on `CellOf(i)`, with draw `i` and price 0; the model is `Valid` |
| `Field.FieldModel.PlaceColumn` | Python/Harvesting_in_Agriculture/FieldModel.py:92-99 | one pass of the inner loop over y places patches on exactly the column's non-mill cells, in order, and keeps the earlier patches |
| `Field.FieldModel.PlaceNewPatch` | Python/Harvesting_in_Agriculture/FieldModel.py:96-99 | a new patch with the next id and its draws is appended and placed on the given cell |
| `FieldGrid.CellOf` | Python/Harvesting_in_Agriculture/FieldModel.py:91-94 | every id's cell is inside the grid and is not the mill cell |
| `FieldGrid.CellIndexOfCell` | Python/Harvesting_in_Agriculture/FieldModel.py:90-99 | `CellIndex` undoes `CellOf` |
| `FieldGrid.CellOfIndex` | Python/Harvesting_in_Agriculture/FieldModel.py:90-99 | `CellOf` undoes `CellIndex`, so every crop cell gets a patch |
| `FieldGrid.CellOfOrdered` | Python/Harvesting_in_Agriculture/FieldModel.py:91-92 | a smaller id sits on an earlier cell in x-major order |
| `FieldGrid.CellOfInjective` | Python/Harvesting_in_Agriculture/FieldModel.py:91-98 | distinct ids are on distinct cells |
| `FieldGrid.LoopsVisitCellOf` | Python/Harvesting_in_Agriculture/FieldModel.py:91-94 | the cells the nested loops visit, in order, are exactly `CellOf(0)`, `CellOf(1)`, ... |
| `FieldGrid.VisitedPrefix` | Python/Harvesting_in_Agriculture/FieldModel.py:91-99 | at loop point `(x, y)`, the cells visited so far are the cells of ids `0 .. CellsBefore(x, y) - 1` |
| `Field.FieldModel.Heights` | Python/Harvesting_in_Agriculture/FieldModel.py:103 | the "Height" reporter: entry `i` is the height of the patch with id `i` |
| `Field.FieldModel.Collect` | Python/Harvesting_in_Agriculture/FieldModel.py:101-104 | one model row (average height, cashflow, count) and one row of patch heights are appended, as they stand |
| `Field.FieldModel.Step` | Python/Harvesting_in_Agriculture/FieldModel.py:106-111 | the rain is stored. The best patch is the first-greatest patch of the previous prices, or none. The pre-step metrics are appended. Patches and books end as `StepPatches` and `StepBooks` of the old state, whatever the order. The capacity is refilled. The model stays `Valid`: every patch placed, no height or sugar below 0, and no two patches on one cell |
| `Field.FieldModel.Prepare` | Python/Harvesting_in_Agriculture/FieldModel.py:107-109 | the first half of a step: rain stored, best patch chosen on the cached prices, metrics collected |
| `Field.FieldModel.ScheduleStepAndRefill` | Python/Harvesting_in_Agriculture/FieldModel.py:110-111 | the schedule pass gives `StepPatches` and `StepBooks`, then the capacity is full again |
| `Field.FieldModel.ScheduleStep` | Python/Harvesting_in_Agriculture/FieldModel.py:110 | activating the patches in the given permutation leaves them as `StepPatches` and the books as `StepBooks` |
| `Field.FieldModel.StepAgent` | Python/Harvesting_in_Agriculture/FieldModel.py:110 | one activation changes exactly one patch, as `Activate` says, and keeps the model `Valid` |
| `Field.Advance` | Python/Harvesting_in_Agriculture/FieldModel.py:122-123 | one loop pass appends the pre-step row. The books that follow it have at most one more harvest, and without one only the irrigation bill changes the cashflow |
| `Field.RunFrom` | Python/Harvesting_in_Agriculture/FieldModel.py:122-123 | the loop runs until there is one row per rain draw, keeping the row relation |
| `Field.RowsFollowSnoc` | Python/Harvesting_in_Agriculture/FieldModel.py:122-126 | appending a row that follows the last one keeps the whole table consistent |
| `Field.RunModel` | Python/Harvesting_in_Agriculture/FieldModel.py:116-127 | 3240 rows. The first is (mean of the initial heights, 1000000, 0). Row `t` counts at most `t` harvests. Consecutive rows differ by at most one harvest, and without a harvest the cashflow moves by exactly the irrigation bill of that step's rain |
| `ModelViz.Hex` | Python/Harvesting_in_Agriculture/main_model_viz.py:122 | `%x`: lowercase hex digits; one digit below 16, at most two below 256, and no leading zero |
| `ModelViz.HexRoundTrip` | Python/Harvesting_in_Agriculture/main_model_viz.py:122 | the hex text of any natural number reads back as that number |
| `ModelViz.Format02x` | Python/Harvesting_in_Agriculture/main_model_viz.py:122 | `%02x`: at least two characters, a leading `-` exactly for negatives, exactly two hex digits for a byte |
| `ModelViz.Format02xRoundTrip` | Python/Harvesting_in_Agriculture/main_model_viz.py:122 | the `%02x` text of any integer reads back as that integer |
| `ModelViz.RgbToHex` | Python/Harvesting_in_Agriculture/main_model_viz.py:121-122 | starts with `#` and has at least 7 characters; with byte components it is exactly `#` and six lowercase hex digits |
| `ModelViz.RgbToHexDigits` | Python/Harvesting_in_Agriculture/main_model_viz.py:121-122 | with byte components the text is `#` and, for each component in order, its high and low hex digit |
| `ModelViz.RgbToHexRoundTrip` | Python/Harvesting_in_Agriculture/main_model_viz.py:121-122 | byte colours survive `ParseRgbHex(RgbToHex(c)) == c` |
| `ModelViz.ParseRgbHexRoundTrip` | Python/Harvesting_in_Agriculture/main_model_viz.py:121-122 | every lowercase `#rrggbb` text is `rgb_to_hex` of the colour it reads as, so on bytes the formatter is a bijection |
| `ModelViz.ColorsAreGreens` | Python/Harvesting_in_Agriculture/main_model_viz.py:129-136 | the colour list is `#000000`, `#004000`, `#008000`, `#00c000`, `#00ff00`, `#00ff00` |
| `ModelViz.FirstBound` | Python/Harvesting_in_Agriculture/main_model_viz.py:138-139 | the first index from `from` whose bound the height does not exceed; with every earlier bound below the height; or none when all bounds are below it |
| `ModelViz.Bucket` | Python/Harvesting_in_Agriculture/main_model_viz.py:127-139 | a height gets a bucket exactly when it is at most 5, and the bucket is the first `i` with `height <= heights[i]` |
| `ModelViz.Styled` | Python/Harvesting_in_Agriculture/main_model_viz.py:125-143 | a styled portrayal keeps `Shape` "rect" and `Filled` "true", and adds the bucket's size as `w` and `h`, its colour and layer 0 |
| `ModelViz.AgentPortrayal` | Python/Harvesting_in_Agriculture/main_model_viz.py:124-146 | a patch whose height fits a bucket gets that bucket's styling. A taller patch keeps the defaults, with size 0.5 and no colour or layer |
| `ModelViz.PortrayalSizeMonotone` | Python/Harvesting_in_Agriculture/main_model_viz.py:127-141 | up to height 5, a taller patch is never drawn smaller |
| `ModelViz.PortrayalGapAboveFive` | Python/Harvesting_in_Agriculture/main_model_viz.py:125-144 | height 5 gets bucket 4 (size 1.0), but height 5.5 gets no bucket: size 0.5 and no colour |
| `ModelViz.IntendedBucket` | Python/Harvesting_in_Agriculture/main_model_viz.py:128-135 | the intended bucket: the first `i` with `height <= heights[i]`, or the sixth entry for any height above 5 |
| `ModelViz.AgentPortrayalIntended` | Python/Harvesting_in_Agriculture/main_model_viz.py:124-146 | the corrected rule: every patch is styled with its intended bucket |
| `ModelViz.IntendedSizeMonotone` | Python/Harvesting_in_Agriculture/main_model_viz.py:128-135 | with the corrected rule every height is coloured, and a taller patch is never drawn smaller |

Right after a harvest, a patch's cached price is not the formula's price for
its current sugar. `PatchAgent.step` refreshes the price (FieldModel.py line 50)
before `being_harvested` runs, and `being_harvested` (lines 67-72) cuts height
and sugar but leaves the price alone. So a patch just cut has sugar 0 but keeps
its pre-harvest price, which is usually the highest on the field. `Activate`
and `Cut` state this: the price is unchanged by a harvest. The best patch is
chosen from the cached prices, so the patch just cut is normally chosen again
on the next step, when it is far too short to be harvested.

## Left out

- Field.FindBestPatch: scans the patches in the order they were added (ids 0,
  1, ...) on every step, so ties go to the lowest id. That is the order of
  `schedule.agents` under Mesa before 2.2, where `RandomActivation.step()`
  shuffles a copy of the agent keys. From Mesa 2.2 on, the scheduler shuffles
  its agent set in place. From step 2, ties would then go to the first patch of
  the previous step's activation order. The source pins no Mesa version, and
  that reorder is not modelled.
- Field.FieldModel.ScheduleStep: activates the patches in the given order but
  leaves the stored patch order as it was. This is the same assumption as for
  `Field.FindBestPatch`.

- The random number generator. The `uniform` draws for sugar and height, the
  rain draw and Mesa's `RandomActivation` shuffle are parameters: a draw
  sequence, rain values and permutations. Seeding is not modelled.
- `math.sqrt` is the `sqrt` parameter of the model. No square root is computed,
  so no fact depends on its values. The rest of the price formula is exact.
- Floating point. Heights, sugar, prices and cashflow are exact reals, so the
  model has no rounding errors. `round(x, 2)` is applied to the exact value,
  which rounds halves to even.
- `np.mean` of an empty list is NaN with a warning. The model gives `None`.
- Mesa's `MultiGrid`, `Model`, `Agent`, `DataCollector` and the data frame.
  - The grid is each patch's `pos` field.
  - The model's patch list is the schedule.
  - The collector is two append-only tables.
  - `get_model_vars_dataframe` is the sequence of model rows, without the data
    frame index.
- The copy of the engine at the top of `main_model_viz.py` (lines 19-112) is
  line for line the same as `FieldModel.py` lines 18-111. It is modelled once,
  in `Field` and `FieldStep`.
- Field.FieldModel.Prepare: stores the rain draw after `find_best_patch`
  rather than before. `find_best_patch` does not read the rain, so the two
  orders give the same state.
- Field.FieldModel.Step: requires `Valid()` and `Ready()`. These are the
  invariants the constructor establishes and every step keeps: every patch
  placed with its id, no negative height or sugar, no shared cells, and full
  capacity between steps. The
  rain is drawn by the step itself, so the "no rain yet" failure of a patch
  cannot occur inside it. It is modelled in `PatchAgent.Step`.
- An exception in a patch step aborts the Python step. `PatchAgent.Step`
  returns a `Fail` outcome instead, in the state reached when Python raises.
- In `agent_portrayal`, the size list's `1` is a Python `int` among floats. The
  model has the real 1.0. The dictionary's values are a small `Value` datatype.
- The web server, charts and histogram in `main_model_viz.py` lines 148-164,
  `ExtraChart.py`, `HistogramModule.js`, `dash_model.py` and
  `streamlit_model.py` are front ends. They are not part of this model.

## Findings

| source | as written | input that shows it | evidently intended | confidence | as-written member | corrected member |
|---|---|---|---|---|---|---|
| Python/Harvesting_in_Agriculture/main_model_viz.py:138-144 | a patch taller than 5 matches no bucket. It keeps the default size 0.5 with no colour, so `sizes[5]` and `colors[5]` are never used | a patch of height 5.5, which is reachable: an unharvested patch grows up to 0.00246 per step for 3240 steps | size 1.2 and `#00ff00` "for any height above 5", per the comment on the sixth colour | not executed; high that the sixth entries were meant to be reached | `ModelViz.PortrayalGapAboveFive` | `ModelViz.AgentPortrayalIntended` |
