# AlgaeGrowth Simulator: the simulation engine in Dafny

This project models the bookkeeping core of the AlgaeGrowth Simulator, a day-by-day simulator of
microalgae growth and CO2 capture in an open raceway pond. It covers five parts:

- **Calendar walk** (`Calendar`, from `_build_day_to_month_map`). It maps each simulation day to a
  month of the twelve-month climate profile. It starts at the configured month and uses the month
  lengths of the non-leap year 2023. December wraps to January.
- **Engine** (`Engine`, from `run_simulation`). Each day it does the following:
  - takes the net growth rate `mu_net` at the current biomass;
  - records areal productivity and CO2 from the biomass before the step, booking CO2 only on days
    of positive growth;
  - advances the biomass by one forward Euler step of one day, floored at zero;
  - when the biomass reaches the harvest threshold, resets it to the initial biomass and books the
    mass removed.

  After the loop it computes the totals, the cumulative CO2 series per unit area, the breakdown by
  season (dry, hot, monsoon) and the sorted, deduplicated warning list. Every exception the Python
  code can raise becomes an `EngineError`:
  - `calendar.IllegalMonthError`;
  - `IndexError` from the month lookup;
  - `ZeroDivisionError` from a zero surface area;
  - `KeyError` from an unknown season.
- **Growth combiner** (`GrowthModifier`, from `daily_growth_rate`). It computes photoperiod-weighted
  daytime growth minus night respiration, clamped at zero. Both pieces are scaled by the CTMI
  temperature modifier.
- **Result record** (`Results`, from `SimulationResult`). It adds `peak_productivity` and the
  relationships the field documentation fixes between the fields.
- **UI defaults** (`UiDefaults`, from `ui/defaults.py`):
  - the default inputs;
  - the ordered hard validation, `collect_validation_errors`;
  - the uniform override climate, `build_overridden_climate`.

`RunProperties` states what a run guarantees about its result:
- the Euler recurrence behind each daily list;
- the harvest cycle;
- non-negativity;
- CO2 conservation between the daily, total, cumulative and seasonal values;
- the season-lookup error.

The main loop, the cumulative loop, the seasonal loop and the calendar walk are methods with
loops. Each is proved against a specification function:
- `Trajectory`, which is built one `EulerDay` at a time;
- `DayMap`;
- `IsCumulative`;
- `SeasonTotals` and `SeasonMeans`.

The validator is a straight-line method. It appends one message per failed check and is proved
equal to `ErrorsFor`.

Properties are then proved about those functions. The override climate gives every month the
season `"custom"`. `UiDefaults.OverriddenClimateFailsSeasonLookup` proves that a run of at least one
day on such a climate therefore fails the seasonal lookup. The app reaches this case. In
src/ui/app.py, line 88 selects the override climate whenever the climate is overridden, and
line 104 passes that climate to the simulation. The sidebar that builds the override is not part
of this model.

## Model

| member | source | states |
|---|---|---|
| Calendar.DaysInMonth | src/simulation/engine.py:63 | month lengths of 2023: February alone has 28 days, April, June, September and November 30, the rest 31 |
| Calendar.NextMonth | src/simulation/engine.py:70 | the next month is in 1..12, differs from the current one, and December is followed by January |
| Calendar.PositionAt | src/simulation/engine.py:60-71 | after any number of days the walk stands in a month 1..12 with fewer days spent than that month has |
| Calendar.MonthIndexAt | src/simulation/engine.py:66 | every recorded month index is in 0..11 |
| Calendar.DayMap | src/simulation/engine.py:56-58 | the map has one entry per simulation day (none for a non-positive duration), each in 0..11 |
| Calendar.BuildDayToMonthMap | src/simulation/engine.py:43-73 | a start month outside 1..12 raises IllegalMonthError; otherwise the map equals DayMap, has one entry per day and starts at start_month - 1 |
| Calendar.ConsecutiveDays | src/simulation/engine.py:65-71 | consecutive days are in the same month or in the next one modulo 12 |
| Calendar.ChangeMeansMonthUsedUp | src/simulation/engine.py:67-71 | the month changes exactly after its last day; the new month starts at day 0, otherwise the day count goes up by one |
| Calendar.DayInRun | src/simulation/engine.py:67-69 | inside a run of one month begun on day a, day j is day j - a of that month |
| Calendar.RunLength | src/simulation/engine.py:63-71 | every complete run of one month lasts exactly that month's number of days |
| Calendar.MonthConstantInRun | src/simulation/engine.py:65-71 | a run without month changes keeps the month it started with |
| Calendar.RunAtMostMonthLength | src/simulation/engine.py:65-71 | no run, the last one included, is longer than its month |
| GrowthModifier.DayFraction | src/climate/growth_modifier.py:113 | the day fraction is in (0, 1] for positive photoperiod, 1 from 24 hours on, and photoperiod / 24 in between |
| GrowthModifier.DailyGrowthRate | src/climate/growth_modifier.py:39-120 | the net rate is never negative and is exactly 0 without daylight |
| GrowthModifier.DocumentedFormula | src/climate/growth_modifier.py:85-120 | for 0 < photoperiod <= 24 the rate is max(mu_base * f_day * p/24 - r_maintenance * f_night * (24 - p)/24, 0) |
| GrowthModifier.FullDaylightHasNoRespiration | src/climate/growth_modifier.py:113-117 | from 24 hours of daylight on, respiration drops out and the rate is max(mu_base * f_day, 0) |
| GrowthModifier.NetRateAtMostDaytimeGrowth | src/climate/growth_modifier.py:108-120 | with non-negative maintenance and night modifier, the rate is at most the clamped weighted daytime growth |
| GrowthModifier.NoGrowthWhenDayModifierIsZero | src/climate/growth_modifier.py:95-120 | a zero daytime temperature modifier gives a zero rate, given non-negative respiration terms |
| GrowthModifier.NetRateAtMostBaseRate | src/climate/growth_modifier.py:90-120 | with the modifiers in [0, 1] and a non-negative base rate, the rate never exceeds the depth-averaged base rate |
| GrowthModifier.ScaleDown | src/climate/growth_modifier.py:95 | arithmetic step for NetRateAtMostBaseRate, not a property of the program: a non-negative value times a factor in [0, 1] stays between 0 and the value |
| GrowthModifier.ScaledTwiceAtMost | src/climate/growth_modifier.py:95-117 | scaling twice by factors in [0, 1] stays below the unscaled rate |
| GrowthModifier.TemperatureOnlyScalesBaseRate | src/climate/growth_modifier.py:90-95 | temperature enters only through the product mu_base * f_day and the night modifier: equal products give equal rates |
| Series.Mean | src/simulation/engine.py:184-188 | 0.0 for an empty series; otherwise the mean times the length is the sum (the guarded averages, also those of src/simulation/engine.py:211-218) |
| Series.MaxOf | src/models/results.py:86 | max() of a non-empty series: one of its elements, and no element exceeds it |
| Series.RangeLength | src/simulation/engine.py:117 | range(duration_days) runs duration_days iterations, none when duration_days is not positive |
| Series.PrefixSumMonotone | src/simulation/engine.py:191-196 | with non-negative values, the sum over a longer prefix is at least the sum over a shorter one |
| StringOrder.SortedUnique | src/simulation/engine.py:221 | tuple(sorted(set(all_warnings))): strictly increasing, so free of repeats, and holding exactly the strings of the input |
| Results.SimulationResult.PeakProductivity | src/models/results.py:81-86 | 0.0 for an empty series; otherwise an element of the series and at least every element |
| Engine.Stepped | src/simulation/engine.py:151-154 | the stepped biomass is never negative and is at least the unfloored Euler step x + mu * x |
| Engine.DailyCo2 | src/simulation/engine.py:139-148 | no CO2 is booked on a day whose net rate is not positive |
| Engine.EulerDay | src/simulation/engine.py:121-162 | one day: the rate at the pre-step biomass, productivity and CO2 from that biomass, harvest exactly when the stepped biomass reaches the threshold, then reset to the initial biomass and removal of the excess, otherwise the stepped biomass (below the threshold) and nothing removed |
| Engine.Trajectory | src/simulation/engine.py:117-176 | one record per simulated day |
| Engine.Col | src/simulation/engine.py:165-169 | every daily list has one entry per record |
| Engine.TimeAxis | src/simulation/engine.py:165 | the time axis has one entry per day |
| Engine.ParseSeason | src/simulation/engine.py:199-207 | a recognised season name reads back to the same key |
| Engine.SeasonLabels | src/simulation/engine.py:205-206 | one season label per day |
| Engine.Visited | src/simulation/engine.py:118 | one month of the profile per day |
| Engine.RunMonths | src/simulation/engine.py:117-118 | a run that raises nothing visits one month per simulation day |
| Engine.TrajectorySnoc | src/simulation/engine.py:117-176 | one more day appends to the trajectory the Euler day started from the last biomass |
| Engine.RecordSnoc | src/simulation/engine.py:159-173 | appending a day appends its value to every list, its index to the harvest days when it harvested, its removal to the total and its warnings to the warning list |
| Engine.TrajectoryPrefix | src/simulation/engine.py:117-176 | the first k days of a run are the run of the first k months |
| Engine.TrajectoryStep | src/simulation/engine.py:117-176 | day d is the Euler day started from the initial biomass on day 0 and from day d - 1's biomass after that |
| Engine.ColIndex | src/simulation/engine.py:165-169 | entry d of a daily list is day d's value |
| Engine.TimeAxisIndex | src/simulation/engine.py:165 | time_days[d] == d |
| Engine.HarvestDaysFacts | src/simulation/engine.py:157-162 | harvest days are strictly increasing day indices, and a day is one exactly when it harvested |
| Engine.AllWarningsFacts | src/simulation/engine.py:172-173 | a warning is collected exactly when some day's productivity raised it |
| Engine.ParseSeasonNames | src/simulation/engine.py:199 | the accepted season names are exactly dry, hot and monsoon, in the order of the result's seasonal entries |
| Engine.SeasonValuesStep | src/simulation/engine.py:205-208 | one more day adds its value to its own season only |
| Engine.SeasonSumStep | src/simulation/engine.py:205-208 | adding the last day adds its value and one day to its own season only |
| Engine.SeasonSumsAddUp | src/simulation/engine.py:199-210 | when every day has a season, the three seasonal sums add up to the total and the seasons' day counts add up to the days |
| Engine.FirstUnknownSeasonNone | src/simulation/engine.py:205-207 | no unknown season is met exactly when every visited season is known |
| Engine.FirstUnknownSeasonAt | src/simulation/engine.py:205-207 | the season reported is that of the first day with an unknown season |
| Engine.TalliesStart | src/simulation/engine.py:200-203 | the dictionaries start with a zero total and an empty list for each season |
| Engine.Co2TalliedStep | src/simulation/engine.py:207 | a day of season s adds its CO2 to the total of s only |
| Engine.ProductivityTalliedStep | src/simulation/engine.py:208 | a day of season s appends its productivity to the list of s only |
| Engine.DivisionDistributes | src/simulation/engine.py:195 | arithmetic step for RunningTotalStep, not a property of the program: converting two amounts to g per m2 and adding equals converting their sum |
| Engine.RunningTotalStep | src/simulation/engine.py:193-196 | each step of the running total extends the converted prefix sum by one day |
| Engine.RunIsWellFormed | src/models/results.py:20-79 | the result of a run satisfies every relation the field documentation fixes, the start month in 1..12 included |
| Engine.VisitedSnoc | src/simulation/engine.py:118 | a month lookup inside the profile extends the visited months by that month |
| Engine.VisitedAll | src/simulation/engine.py:117-118 | after the last day every lookup was in range and the visited months are those of the map |
| Engine.SimulateDay | src/simulation/engine.py:121-162 | one iteration of the main loop computes exactly EulerDay |
| Engine.RunDays | src/simulation/engine.py:97-176 | fails with IndexError exactly when some day's month is not in the profile; otherwise every list equals the trajectory's column, the harvest days, their count, the harvested total and the warnings |
| Engine.CumulativeCo2 | src/simulation/engine.py:191-196 | fails with ZeroDivisionError exactly for a zero area and at least one day; otherwise entry i is the CO2 of days 0..i in g per m2 |
| Engine.SeasonalBreakdown | src/simulation/engine.py:199-218 | fails with KeyError naming the first unknown season exactly when there is one; otherwise the per-season sums of CO2 and means of productivity in the order dry, hot, monsoon, 0.0 for a season without days |
| Engine.RunSimulation | src/simulation/engine.py:76-243 | raises exactly the error SimulationError names; otherwise the result is the run of the trajectory (lists, totals, tonnes, average, cumulative series, seasonal breakdown, sorted unique warnings) and is well formed |
| RunProperties.RunMonthAt | src/simulation/engine.py:118 | day d of a run uses the month at its day-map index, which lies inside the profile |
| RunProperties.DayOfTrajectory | src/simulation/engine.py:121-169 | every list entry of day d, written with the day's starting biomass and month |
| RunProperties.RunLengths | src/simulation/engine.py:117-169 | time, biomass, growth rate, CO2 and productivity lists all have duration_days entries |
| RunProperties.DayOfRun | src/simulation/engine.py:118-176 | day d of a run's result follows the Euler recurrence from the previous day's biomass |
| RunProperties.EulerRecurrence | src/simulation/engine.py:117-176 | for every day: rate at the current month and biomass, productivity and CO2 from it, harvest exactly at the threshold, reset or stepped biomass |
| RunProperties.BiomassNeverNegative | src/simulation/engine.py:154-160 | from a non-negative initial biomass every recorded biomass is non-negative, whatever the growth rate |
| RunProperties.HarvestCycle | src/simulation/engine.py:157-162 | every biomass is below the threshold or equals the initial biomass; harvest days are in range, strictly increasing, reset to the initial biomass, and harvest_count of them |
| RunProperties.Co2OnlyOnGrowthDays | src/simulation/engine.py:139-148 | daily CO2 is zero whenever mu_net <= 0 |
| RunProperties.ProductNonNegative | src/simulation/engine.py:140-146 | arithmetic step for EulerDaySigns, not a property of the program: a product of non-negative factors over 1000 is non-negative |
| RunProperties.VolumeNonNegative | src/simulation/engine.py:114 | arithmetic step for EulerDaySigns, not a property of the program: non-negative area and depth give a non-negative volume |
| RunProperties.EulerDaySigns | src/simulation/engine.py:139-160 | the signs of one day's biomass and CO2 given the signs of its inputs |
| RunProperties.TrajectorySigns | src/simulation/engine.py:139-176 | the sign facts hold for every day of a trajectory |
| RunProperties.Co2ColumnNonNegative | src/simulation/engine.py:139-148 | from a non-negative start, pond size and CO2 yield, no day's CO2 is negative |
| RunProperties.DailyCo2NonNegative | src/simulation/engine.py:139-148 | a run's daily CO2 values are non-negative under those conditions |
| RunProperties.CumulativeEndsAtTotal | src/simulation/engine.py:191-196 | the last cumulative entry is total CO2 * 1000 / surface area |
| RunProperties.ScaledMonotone | src/simulation/engine.py:195 | arithmetic step for CumulativeNonDecreasing, not a property of the program: over a positive area, converting to g per m2 keeps order |
| RunProperties.CumulativeNonDecreasing | src/simulation/engine.py:191-196 | over a positive area and with non-negative daily CO2 the cumulative series never decreases |
| RunProperties.CumulativeCo2Facts | src/simulation/engine.py:180-196 | one cumulative entry per day, the last equal to total_co2_kg * 1000 / area, non-decreasing for non-negative daily CO2 over a positive area |
| RunProperties.RunSeasonsKnown | src/simulation/engine.py:205-207 | in a run that returns, every day's season is dry, hot or monsoon |
| RunProperties.SeasonalCo2AddsUpToTotal | src/simulation/engine.py:180-210 | three seasonal CO2 entries that add up to the total, and seasons' day counts that add up to the days |
| RunProperties.SeasonLookupFails | src/simulation/engine.py:199-207 | past the earlier checks, a run fails exactly when some visited season is not dry, hot or monsoon, and then with KeyError |
| RunProperties.HarvestedTotalNonNegative | src/simulation/engine.py:158-159 | a total of non-negative removals is non-negative |
| RunProperties.HarvestedOnDay | src/simulation/engine.py:157-159 | with the threshold at least the initial biomass and a non-negative volume, the mass any one day's harvest removes is non-negative |
| RunProperties.HarvestedTotalOfTrajectory | src/simulation/engine.py:157-159 | with the threshold at least the initial biomass and a non-negative volume, every harvest removes a non-negative mass |
| RunProperties.HarvestedMassNonNegative | src/simulation/engine.py:157-182 | the harvested total in kg of such a run is non-negative |
| RunProperties.WarningsDeduplicated | src/simulation/engine.py:172-221 | the warnings are strictly sorted, hence free of repeats, and are exactly those some day raised |
| RunProperties.EngineRate | src/simulation/engine.py:121-132 | the rate the engine uses (daily_growth_rate for the day's month at the current biomass) is never negative and is zero without daylight |
| RunProperties.SteppedGrows | src/simulation/engine.py:151-154 | arithmetic step for DayWithNonNegativeRate, not a property of the program: a non-negative rate does not shrink a non-negative biomass |
| RunProperties.DayWithNonNegativeRate | src/simulation/engine.py:121-162 | one day of such a run: non-negative rate, biomass not below the day's start unless harvested, no growth and no CO2 in a month without daylight |
| RunProperties.BiomassGrowsBetweenHarvests | src/simulation/engine.py:121-176 | under that rate every growth rate is non-negative, biomass never falls between harvests, and a dark month adds no growth and no CO2 |
| UiDefaults.DefaultsAreValid | src/ui/defaults.py:14-33 | the default inputs pass validation, the default start month is valid, the default duration gives 365 days and the threshold exceeds the initial biomass |
| UiDefaults.PresetsArePositive | src/ui/defaults.py:40-46 | five presets, the custom one first without a count, every other one a positive day count |
| UiDefaults.MonthNamesCoverTheCalendar | src/ui/defaults.py:54-68 | twelve month names; every day-map entry indexes one of them, and the first day's entry names the start month |
| UiDefaults.CollectValidationErrors | src/ui/defaults.py:75-104 | the list built check by check equals the messages of the failed checks |
| UiDefaults.Messages | src/ui/defaults.py:95-104 | one message per check |
| UiDefaults.MessagesSnoc | src/ui/defaults.py:95-104 | one more check adds its message at the end |
| UiDefaults.MessagesStep | src/ui/defaults.py:96-103 | one more check adds its message exactly when it rejects |
| UiDefaults.ErrorsAreFailedChecks | src/ui/defaults.py:95-104 | the errors are the messages of the checks that reject, in check order |
| UiDefaults.FailedStep | src/ui/defaults.py:96-103 | one more check is added to the failed list exactly when it rejects |
| UiDefaults.Rank | src/ui/defaults.py:96-103 | each check has a position in the fixed order |
| UiDefaults.FailedFacts | src/ui/defaults.py:95-104 | the failed checks are exactly the rejecting ones, kept in order |
| UiDefaults.FailedOfCheckOrder | src/ui/defaults.py:95-104 | the failed checks of the four are those that reject, in the order area, depth, biomass, CO2 |
| UiDefaults.MessagesDistinct | src/ui/defaults.py:97-103 | the four messages are different |
| UiDefaults.MessagesMembership | src/ui/defaults.py:95-104 | a check's message is present exactly when the check is |
| UiDefaults.ValidationPassesIff | src/ui/defaults.py:83-104 | no error exactly when surface_area > 0, depth > 0, initial_biomass > 0 and co2_concentration >= 0 |
| UiDefaults.ValidationMessageCount | src/ui/defaults.py:95-104 | as many messages as failed checks, at most four |
| UiDefaults.ValidationMessagePresent | src/ui/defaults.py:96-103 | a check's message is reported exactly when that check rejects |
| UiDefaults.ValidationMessageOrder | src/ui/defaults.py:95-104 | messages come in the order area, depth, biomass, CO2 |
| UiDefaults.MessageAt | src/ui/defaults.py:95-104 | entry i of the messages is the message of check i |
| UiDefaults.ValidationBoundaries | src/ui/defaults.py:96-103 | CO2 = 0 passes; area = 0, depth = 0 and biomass = 0 are each rejected with their message alone |
| UiDefaults.ForcedSingle | src/ui/defaults.py:95-104 | when exactly one check fails, its message is the only one |
| UiDefaults.BuildOverriddenClimate | src/ui/defaults.py:111-150 | twelve identical months with season custom, no rain, no cloud and the given temperatures, PAR and photoperiod; city, country, coordinates and climate parameters copied from the base |
| UiDefaults.OverriddenClimateFailsSeasonLookup | src/ui/defaults.py:134-142 | a run of at least one day on an override climate fails with KeyError for the season custom; a run of no days returns |

## Left out

- Light attenuation (`simulation/light.py`) is not part of this model. It is floating-point
  Beer-Lambert numerics.
- Three functions come from source files outside this model, so they are parameters and their
  bodies are not modelled:
  - `temperature_response`, the CTMI curve;
  - `depth_averaged_growth_rate`;
  - `check_productivity_warnings`.
- Properties that need bounds on those functions take the bounds as preconditions. Examples are the
  CTMI modifier in [0, 1] and a non-negative base rate.
- Engine.RunSimulation: `mu_net` is a parameter `rate(month, biomass)` rather than the fixed call
  to `daily_growth_rate`. This is deliberately more general. `RunProperties.EngineRate` builds the
  engine's own rate from `GrowthModifier.DailyGrowthRate` and proves the two properties the
  growth-rate lemmas rely on.
- Arithmetic is exact real arithmetic, so float rounding is not modelled. Equalities that tests
  check up to a tolerance are stated exactly. This matters most for the running CO2 total.
- `calendar.monthrange` is replaced by the fixed 2023 month-length table; leap years play no role.
- Season keys: the seasonal dictionaries, keyed by the strings dry, hot and monsoon, are modelled
  as maps keyed by a `Season` datatype. `Engine.ParseSeason` translates a month's season name, and
  any other name raises KeyError as in the source.
- RunProperties.DailyCo2NonNegative: holds only for a non-negative initial biomass, surface area,
  depth and CO2-to-biomass ratio. The engine does not enforce these inputs. The UI's validator
  rejects a non-positive area, depth or biomass, but it never checks the CO2-to-biomass ratio. It
  also does not stop the run: src/ui/app.py:101-104 runs the simulation whatever the validator
  reports.
- RunProperties.HarvestedMassNonNegative: needs a threshold at least the initial biomass and a
  non-negative volume. Otherwise a harvest can remove a negative mass, as in the source.
- RunProperties.BiomassGrowsBetweenHarvests: stated for a rate that is never negative and is zero
  in darkness. `RunProperties.EngineRate` proves the engine's rate is such a rate.
- The Streamlit UI, its caching and the YAML and climate loaders are left out. They are rendering
  and file I/O.
- The integration tests that depend on loaded species data and float physics are not modelled.
- The package `__init__` re-exports are not modelled.
- `ReactorParams` is declared as a record and used nowhere, as in the source.
