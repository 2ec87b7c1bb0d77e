# IMC_SF epidemic model in Dafny

This project models the IMC_SF case-count model of `tools/imc_sf.py` and
proves properties of it. The model has three parts.

- **The master equation.** `ims_sf_master_equation` takes the previous day's
  raw count `n_kt`, its 7-day average `n_nb_7ra`, the previous ratio `g0` and
  the weights `p = (p1, p2, p3)`. It returns:
  - the ratio `g`;
  - the composite indicator `s`;
  - the case-count band `[n_s_min, n_s_max]`.
- **The historical table** that `RefData.__init__` builds:
  - a 7-day trailing mean of the counts, with an expanding window for the
    first six days;
  - row 0 seeded by `ims_sf_init` (g = 0.8, s = 0) with both bounds equal to
    the first count;
  - each later row written from the master equation of the row before it;
  - then the band's mean and the 7-day means of `g` and `s`.
- **The forecast** of `RefData.forecast`:
  - it preallocates one slot per day up to the end date;
  - it broadcasts seeds from the historical tail;
  - for k = 0..6 it seeds the 7-day average of slot k from the historical
    counts;
  - it then steps forward, feeding each slot's own prediction back into the
    master equation;
  - each new count is added, divided by 7, into the averages of the next (up
    to) seven slots.

The modules follow that structure:

- `Numerics` holds sums, means, trailing windows and the `Indicator` type for
  `s`.
- `MasterEquation` holds the equation, which is pure.
- `History` holds the historical table. `WalkSteps` is the loop over the
  rows: it fills an array of master-equation results one row at a time.
  `BuildHistory` puts the columns together from those results. It is proved
  against the predicate `IsHistory`.
- `Propagation` holds the forecast. `SeedTable`, `PropagateStep` and
  `RunSteps` work in place on an array: they seed it, then update each slot
  and the averages of the slots after it. They are proved against
  `Seeded`, `StepRows` and `Walk`. `Propagate` is proved against the
  predicate `IsForecast`.
- `ImcSf` holds the class `RefData`. Its fields are the weights, the
  historical table and the optional forecast table.

`ims_sf_init` is the pair of constants `MasterEquation.InitialG` and
`MasterEquation.InitialS`. The weights are an immutable value passed to
every call. Dates are integer day offsets. Counts are `real`.

## Behaviour worth knowing

The lemmas below pin down four points of the code's behaviour.

- **Which counts a forecast average holds.** The seeds read
  `iloc[-8 + k:-1]`, which skips the last historical day. Slot 0's count is
  never spread, because the loop starts at slot 1. So slot i's average is a
  seventh of the last seven counts (fewer when L + i < 8) of the series
  "history without its last day, then forecast from slot 1" that come before
  index L - 1 + i of that series. For i >= 1 that window ends at slot i's own
  count; for i = 0 it ends at historical row L - 2
  (`Propagation.ForecastWindow`). It is not the trailing mean of the seven
  days ending at slot i. From slot 7 on it is the trailing mean over the
  forecast counts alone (`Propagation.ForecastInterior`).
- **Whether the forecast settles.** Each step multiplies the count by
  g (3 p1 + 7 p2 + 11 p3) / 2 (`Propagation.SteppedCases`). With the default
  weights, seven equal counts c > 1e-10 (`Epsilon`) from slot 7 on are
  followed by 2.6 c (`Propagation.FlatWindowGrows`). So no forecast of
  sixteen or more days holds one count c > 1e-10 on every slot from 7 on
  (`Propagation.ForecastNeverSettles`).
- **Short histories.** With fewer than eight historical rows the
  `iloc[-8 ...]` slices simply start at row 0. So the forecast is modelled
  for any history of at least two rows.
- **The band's order.** The band is ordered when the weights and counts are
  non-negative (`MasterEquation.MasterBand`). Its width is
  g n_kt (p1 + p2 + p3).

A zero raw count reaches `delta_nk`, which divides without a guard. The
model then gives `s` the value `Indicator.Singular`. The walk carries on,
because `g` and the band never depend on `s`. Any mean over a window that
holds a `Singular` is `Singular` too. `History.HistorySingular` states
exactly which rows this affects.

## Model

| member | source | states |
|---|---|---|
| `Numerics.Min` | tools/imc_sf.py:135 | Python's two-element `min` is at most both arguments and equal to one of them |
| `Numerics.MeanInd` | tools/imc_sf.py:74-75 | mean of `s` values: defined exactly when every entry is, and then the mean of their values |
| `Numerics.TrailingMean` | tools/imc_sf.py:41 | definition: the mean of the at most seven entries ending at i; properties in `TrailingMeanBounds` and `TrailingMeanPrefix` |
| `Numerics.RollingMeans` | tools/imc_sf.py:41 | one entry per count; entry i times the window length min(i + 1, 7) is the prefix sum up to i minus the prefix sum before the window |
| `Numerics.TrailingMeanPrefix` | tools/imc_sf.py:41 | a trailing mean times its window length is a difference of two prefix sums |
| `Numerics.TrailingMeanBounds` | tools/imc_sf.py:41 | a trailing mean of entries in [lo, hi] lies in [lo, hi] |
| `Numerics.TrailingMeanInd` | tools/imc_sf.py:60 | definition: the 7-day mean of `s`, singular when the window holds a singular entry (see "## Left out") |
| `MasterEquation.Master` | tools/imc_sf.py:97-140 | definition of the equation; properties in `MasterRatio`, `MasterBand`, `MasterMean`, `MasterSingular`, `IndicatorParts`, `SampleCall` |
| `MasterEquation.Ratio` | tools/imc_sf.py:107-118 | definition of equations 6 and 7; properties in `RatioRange` and `RatioSymmetric` |
| `MasterEquation.DeltaG` | tools/imc_sf.py:121-126 | definition of delta_g; properties in `DeltaGSign` |
| `MasterEquation.LowerBound` | tools/imc_sf.py:129 | definition of equation 1 over n1, n2, n3 (lines 103-105); properties in `BandLemma` |
| `MasterEquation.UpperBound` | tools/imc_sf.py:132 | definition of equation 2 over n1, n2, n3 (lines 103-105); properties in `BandLemma` |
| `MasterEquation.DeltaNk` | tools/imc_sf.py:135 | definition of equation 8; properties in `DeltaNkBounds` |
| `MasterEquation.RatioRange` | tools/imc_sf.py:107-118 | non-negative inputs give 0 <= g <= 1; a count above its average gives g < 1; g = 0 on both guarded branches (a count above its average with the count <= 0, and both at most 1e-10 with the count not above) and at a zero count; whenever the count is positive and above its average, or the average exceeds 1e-10 and is not below the count, g times the larger of the two is the smaller |
| `MasterEquation.RatioSymmetric` | tools/imc_sf.py:107-118 | away from the guards, equations 6 and 7 agree: swapping count and average leaves g unchanged |
| `MasterEquation.DeltaGSign` | tools/imc_sf.py:121-126 | delta_g < 0 iff g0 < g; delta_g = (1 - g0)^2 when g0 = g; its size is at least that of g0 - g on either branch |
| `MasterEquation.DeltaNkBounds` | tools/imc_sf.py:135 | delta_nk is defined iff n_kt != 0, and then it is the smaller of (n_nb - n_kt)/n_kt and n_kt |
| `MasterEquation.BandLemma` | tools/imc_sf.py:129-132 | equations 1 and 2 differ by g n_kt (p1 + p2 + p3) and are ordered and non-negative for non-negative p, n_kt and g |
| `MasterEquation.MasterRatio` | tools/imc_sf.py:107-118 | the equation's g lies in [0, 1] for non-negative count and average |
| `MasterEquation.MasterBand` | tools/imc_sf.py:103-132 | the returned band is g n_kt (p1 + p2 + p3) wide (g n_kt when the weights sum to 1), and ordered and non-negative for non-negative p, n_kt and n_nb |
| `MasterEquation.MasterMean` | tools/imc_sf.py:103-132 | the band's mean is g n_kt (3 p1 + 7 p2 + 11 p3) / 2 |
| `MasterEquation.MasterSingular` | tools/imc_sf.py:134-138 | s is defined iff n_kt != 0; at n_kt = 0 the result is g = 0, band [0, 0], s singular |
| `MasterEquation.IndicatorParts` | tools/imc_sf.py:134-138 | where defined, 3 s = 2 delta_g + delta_nk, so 3 s <= 2 delta_g + n_kt |
| `MasterEquation.SampleCall` | tools/imc_sf.py:195-205 | the sample call (30, 45, 0.5, default p) returns g = 2/3, s = -1/54, band [42, 62] |
| `History.FirstStep` | tools/imc_sf.py:17-20 | definition: the `ims_sf_init` seed g = 0.8, s = 0 with both bounds equal to the first count (lines 43-47); properties in `HistoryFirstRow` |
| `History.IsHistory` | tools/imc_sf.py:38-60 | definition of the historical table; properties in `HistoryUnique`, `HistoryInBand`, `HistoryFirstRow`, `HistorySingular`, `HistoryAverage` |
| `History.WalkSteps` | tools/imc_sf.py:43-55 | the loop's results: entry 0 is the `ims_sf_init` seed with both bounds equal to the first count, entry i the master equation of count, average and g of row i - 1 |
| `History.AssembleIsHistory` | tools/imc_sf.py:57-60 | the columns built from those results, with the band means and the 7-day means of g and s, form the table `IsHistory` describes |
| `History.BuildHistory` | tools/imc_sf.py:41-60 | the row-by-row walk yields exactly the table `IsHistory` describes (one row per observation, trailing means, seeded row 0, row i = master equation of row i - 1) |
| `History.HistoryAverage` | tools/imc_sf.py:41 | row i's average is the trailing mean of the count column at i |
| `History.HistoryUnique` | tools/imc_sf.py:41-60 | the observations and weights determine the historical table |
| `History.HistoryObservations` | tools/imc_sf.py:38-41 | the table's date and count columns are the observations it was built from |
| `History.HistoryFirstRow` | tools/imc_sf.py:43-47 | row 0 has g = 0.8, s = 0 and n_s_min = n_s_max = n_s_avg = its rolling average = the first count |
| `History.HistoryInBand` | tools/imc_sf.py:41-60 | for non-negative counts and weights, every average is non-negative, every g and g average lies in [0, 1], and every band is ordered and non-negative |
| `History.HistorySingular` | tools/imc_sf.py:48-55 | row i's s is singular iff count i - 1 is zero; row 0's s never is |
| `History.FlatStep` | tools/imc_sf.py:107-138 | on a flat day with count c > 1e-10 (`Epsilon`), g = 1, s = 2 delta_g(g0, 1) / 3 and the band is [c (p1 + 3 p2 + 5 p3), c (2 p1 + 4 p2 + 6 p3)] |
| `History.FlatHistory` | tools/imc_sf.py:41-60 | on a flat series of count c > 1e-10 (`Epsilon`) the average is c everywhere, g = 1 and the band is constant from day 1, s = -2/15 on day 1 and 0 from day 2 |
| `Propagation.LastStep` | tools/imc_sf.py:71-73 | definition: the master equation of the last historical row; properties in `SeedInBand` |
| `Propagation.SeedG` | tools/imc_sf.py:74 | definition: the mean of g over rows L - 8 .. L - 2, clipped at row 0; properties in `ImcSf.SeedGInRange`, `SeedIsPreviousAverage` |
| `Propagation.SeedS` | tools/imc_sf.py:75 | definition: the numpy mean of s over the same rows; properties in `SeedIsPreviousAverage` |
| `Propagation.SeedRa` | tools/imc_sf.py:80-82 | definition: slot k < 7 is seeded with a seventh of the counts of rows L - 8 + k .. L - 2, later slots with 0; properties in `SeedRaIsPreviousAverage` |
| `Propagation.SeedRow` | tools/imc_sf.py:74-80 | definition: the broadcast slot; properties in `SeedInBand` |
| `Propagation.Seeded` | tools/imc_sf.py:74-82 | definition: the table before the loop; `SeedTable` is proved equal to it |
| `Propagation.Advance` | tools/imc_sf.py:85-92 | definition: slot ii rewritten from slot ii - 1; properties in `StepFootprint`, `SteppedCases` |
| `Propagation.Reach` | tools/imc_sf.py:93 | definition: `min(7, days_to_propagate - ii)`; properties in `StepFootprint` |
| `Propagation.Spread` | tools/imc_sf.py:93-94 | definition: adds an amount to the averages of a range of slots; properties in `StepFootprint`, `SpreadKeepsWindows` |
| `Propagation.StepRows` | tools/imc_sf.py:85-94 | definition of one loop step; `PropagateStep` is proved equal to it, properties in `StepFootprint` |
| `Propagation.Walk` | tools/imc_sf.py:84-94 | definition: steps 1 .. t; `RunSteps` is proved equal to it, properties in `WalkProgress` |
| `Propagation.IsForecast` | tools/imc_sf.py:65-94 | definition of the forecast table; properties in `ForecastUnique`, `ForecastWindow`, `ForecastInterior`, `ForecastInBand`, `ForecastDays`, `ForecastNeverSettles` |
| `Propagation.StepFootprint` | tools/imc_sf.py:84-94 | step ii rewrites slot ii from slot ii - 1, adds a seventh of its new count to the averages of slots ii .. ii + 6 that exist, and changes nothing else |
| `Propagation.PropagateStep` | tools/imc_sf.py:84-94 | the in-place step (including the nested `for nn` loop) leaves the array equal to `StepRows` of its old contents |
| `Propagation.SpreadKeepsWindows` | tools/imc_sf.py:93-94 | after step ii every slot's average is its seed plus a seventh of the counts of the slots from 1 (or k - 6) up to min(k, ii) |
| `Propagation.SeedTable` | tools/imc_sf.py:74-82 | the broadcast plus the `for kk` loop gives every slot the seeded g, s, band and count, the first seven slots' averages from the historical tail, and 0 elsewhere |
| `Propagation.RunSteps` | tools/imc_sf.py:84-94 | the `for ii` loop leaves the array equal to `Walk` of its old contents over all steps |
| `Propagation.BuildTable` | tools/imc_sf.py:74-94 | seeding and then running the loop yields `Walk` of the seeded table |
| `Propagation.WalkProgress` | tools/imc_sf.py:84-94 | after steps 1 .. t, slots 1 .. t are master-equation steps of their predecessors and all averages are seed plus the contributions so far |
| `Propagation.WalkIsForecast` | tools/imc_sf.py:84-94 | the table after all steps is the table `IsForecast` describes |
| `Propagation.Propagate` | tools/imc_sf.py:71-94 | the forecast loop produces `Walk` of the seeded table, which is the table `IsForecast` describes |
| `Propagation.ForecastUnique` | tools/imc_sf.py:71-94 | the history, weights and horizon determine the forecast |
| `Propagation.ForecastWindow` | tools/imc_sf.py:80-94 | slot i's average is a seventh of the sum of the window of "history without its last day, then forecast from slot 1" ending before index L - 1 + i, for L historical rows; the window holds seven entries once L + i >= 8 |
| `Propagation.ForecastInterior` | tools/imc_sf.py:93-94 | from slot 7 on, the forecast's average is the trailing 7-day mean of the forecast counts |
| `Propagation.ForecastInBand` | tools/imc_sf.py:71-94 | for non-negative weights and historical counts and averages, every slot has non-negative count and average and an ordered non-negative band, and propagated slots have g in [0, 1] |
| `Propagation.SeedInBand` | tools/imc_sf.py:71-78 | for non-negative weights and a last historical row with non-negative count and average, slot 0's band, from the master equation of that row, is ordered and non-negative and so is its count |
| `Propagation.SteppedCases` | tools/imc_sf.py:85-92 | each propagated count is its predecessor's count times g (3 p1 + 7 p2 + 11 p3) / 2 |
| `Propagation.FlatSlot` | tools/imc_sf.py:85-92 | from a slot whose count equals its average c > 1e-10 (`Epsilon`), the next slot has g = 1 and count 2.6 c under the default weights |
| `Propagation.FlatWindowGrows` | tools/imc_sf.py:84-94 | under the default weights, seven equal counts c > 1e-10 (`Epsilon`) ending at a slot k >= 7 are followed by count 2.6 c |
| `Propagation.ForecastNeverSettles` | tools/imc_sf.py:65-94 | under the default weights, no forecast of sixteen or more days has one count c > 1e-10 (`Epsilon`) on every slot from 7 on |
| `Propagation.SeedRaIsPreviousAverage` | tools/imc_sf.py:81-82 | with eight or more historical rows, slot 0's seeded average is the rolling average of the second-to-last historical day |
| `Propagation.SeedIsPreviousAverage` | tools/imc_sf.py:74-75 | with eight or more historical rows, the broadcast g and s are the 7-day means of g and s on the second-to-last historical day |
| `Propagation.ForecastDays` | tools/imc_sf.py:68-69 | the forecast has one slot per day strictly after the last historical day, up to and including the end date |
| `ImcSf.RefData.constructor` | tools/imc_sf.py:24-63 | the weights are the given ones or (0.5, 0.45, 0.05); the table is the one `IsHistory` describes; no forecast yet |
| `ImcSf.RefData.Forecast` | tools/imc_sf.py:65-94 | the historical table is unchanged; the forecast table is the one `IsForecast` describes for dateEnd - last day slots, all on or before dateEnd |
| `ImcSf.TablesInBand` | tools/imc_sf.py:41-94 | from non-negative observations and weights, both tables keep g in [0, 1] and ordered non-negative bands, and the forecast keeps non-negative counts and averages |
| `ImcSf.SeedGInRange` | tools/imc_sf.py:74 | the broadcast g, a mean of historical ratios in [0, 1], lies in [0, 1] |

## Left out

- Data acquisition through `getdata.acquire_data` and date parsing
  (tools/imc_sf.py:29-39, 66-69). This is I/O in a module that is not part of
  this model. The constructor takes the observations as
  `seq<Observation>`, with integer day offsets. `Forecast` takes the end
  date as a day offset, and `days_to_propagate` is the difference.
- Plotting in `main` and the `__main__` demo (tools/imc_sf.py:143-210). This
  is matplotlib output. The demo's sample call is `MasterEquation.SampleCall`.
- ImcSf.RefData.constructor: requires at least one observation. On an empty
  frame, `.at[0, 'g']` at line 44 adds a row labelled 0, so `iloc[0]` at
  lines 46-47 reads NaN. The table is then one row in which lines 44-45 have
  written g = 0.8 and s = 0, so lines 59-60 give g_7ra = 0.8 and s_7ra = 0,
  while the date, the count, its rolling average and the band columns are
  NaN. That pandas behaviour is not modelled.
- Propagation.SeedRow, Propagation.SeedTable: line 80 sets `new_cases_7ra`
  to the integer 0, which makes an integer column. The seeds written by `.at`
  at line 82 and the `+=` at line 94 are then non-integer floats, and what
  pandas does with them depends on its version (truncate, upcast or refuse).
  The model assumes the first such write turns the column into floats, so
  every average is an exact real.
- ImcSf.RefData.Forecast: requires a horizon of at least 7 days. Below that,
  `.at[kk, ...]` at line 82 enlarges the frame with new rows, and that
  pandas behaviour is not modelled.
- ImcSf.RefData.Forecast: requires at least two historical rows. With one,
  the seed mean over `iloc[-8:-1]` is the mean of an empty slice (NaN).
- Numerics.TrailingMeanInd: a 7-day mean of `s` over a window with a
  singular entry is singular. pandas' rolling mean treats NaN and inf
  entries in its own way, and that is not modelled.
- MasterEquation.DeltaNk: a zero raw count is one `Singular` value. Python
  floats would raise ZeroDivisionError there. numpy floats would give ±inf
  or NaN, and `min` then picks 0, NaN or -inf by the sign of the average.
  The three outcomes are not told apart.
- The default `date_end='2020-06-05'` of `forecast` (line 65). It is a
  calendar date, and dates are not modelled; `Forecast` always takes the end
  day as an argument.
- Index labels. `__init__` writes rows by label (`.at[ii, ...]`, lines
  44-55) and reads them by position (`.iloc[ii-1]`, lines 49-51). The model
  uses sequence positions for both, which assumes the acquired frame is
  indexed 0 .. n - 1.
- Floating-point rounding. Everything is exact `real` arithmetic.
- The default `g0 = 0.5` of `ims_sf_master_equation`. Every call in the
  class passes `g0`, and the model always takes it as an argument.
- `ims_sf_master_equation` reads `p` from `self`. The model passes `p` as a
  parameter, because it is never changed after construction.
- `tools/mfdfa_ss_m1.py`, `tools/cullen_frey.py`, `tools/exercise_4_2.py`
  and `Entry.py` are not part of this model. They are numerical analysis,
  statistics and plotting scripts outside the IMC_SF core.
