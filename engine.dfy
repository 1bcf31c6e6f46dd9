/**
 * The day-by-day simulation engine: a forward Euler step of one day with a biomass floor at
 * zero and a harvest reset, CO2 booked on growing days only, then totals, the cumulative CO2
 * series per unit area and the breakdown by season. The daily net growth rate and the
 * productivity warnings are parameters of the model.
 */
module Engine {
  import opened Wrappers
  import opened Series
  import opened StringOrder
  import opened Parameters
  import opened Calendar
  import opened GrowthModifier
  import opened Results

  /**
   * The net daily growth rate mu_net for a month of the climate profile at the biomass
   * concentration before the day's step; every other argument is fixed for the run.
   */
  type GrowthRate = (MonthlyClimate, real) -> real

  /** check_productivity_warnings: the warnings one day's areal productivity raises. */
  type ProductivityWarnings = real -> seq<string>

  /**
   * The exceptions a run can raise: calendar.IllegalMonthError for a start month outside
   * 1..12, IndexError for a profile with too few months, ZeroDivisionError for a zero
   * surface area, KeyError for a season other than dry, hot and monsoon.
   */
  datatype EngineError =
    | IllegalMonth(month: int)
    | MonthIndexOutOfRange
    | DivisionByZero
    | UnknownSeason(season: string)


  /** What one simulated day records. harvestedG is the mass removed, 0.0 on days without harvest. */
  datatype DayRecord = DayRecord(
    growthRate: real, productivity: real, co2Kg: real, biomass: real, harvested: bool, harvestedG: real)

  /** Pond volume in litres. */
  function VolumeLiters(cfg: SimulationConfig): real
  {
    cfg.surfaceArea * cfg.depth * 1000.0
  }

  /** The biomass a day is advanced to before the harvest check: Euler step, floored at zero. */
  function Stepped(mu: real, x: real): (y: real)
    ensures y >= 0.0
    ensures y >= x + mu * x
  {
    Max(x + mu * x * 1.0, 0.0)
  }

  /** Areal productivity of a day [g/m2/day] at net rate mu from biomass x [g/L]: mu * x * depth * 1000. */
  function ArealProductivity(cfg: SimulationConfig, mu: real, x: real): real
  {
    mu * x * cfg.depth * 1000.0
  }

  /**
   * CO2 captured on a day [kg]: the biomass produced, mu * x [g/L] over the pond volume,
   * times the CO2-to-biomass ratio, in kg; nothing on a day without positive net growth.
   */
  function DailyCo2(cfg: SimulationConfig, sp: SpeciesParams, mu: real, x: real): (kg: real)
    ensures mu <= 0.0 ==> kg == 0.0
  {
    if mu > 0.0 then mu * x * VolumeLiters(cfg) * sp.co2ToBiomassRatio / 1000.0 else 0.0
  }

  /** The mass a harvest removes [g]: the stepped biomass above the initial biomass, over the pond volume. */
  function HarvestedMass(cfg: SimulationConfig, stepped: real): real
  {
    (stepped - cfg.initialBiomass) * VolumeLiters(cfg)
  }

  /** One day of the simulation started from biomass x in month m. */
  function EulerDay(cfg: SimulationConfig, sp: SpeciesParams, rate: GrowthRate, m: MonthlyClimate, x: real): (r: DayRecord)
    ensures r.growthRate == rate(m, x)
    ensures r.productivity == ArealProductivity(cfg, r.growthRate, x)
    ensures r.co2Kg == DailyCo2(cfg, sp, r.growthRate, x)
    ensures r.harvested <==> Stepped(r.growthRate, x) >= cfg.harvestThreshold
    ensures r.harvested ==> r.biomass == cfg.initialBiomass
    ensures !r.harvested ==> r.biomass == Stepped(r.growthRate, x) < cfg.harvestThreshold
    ensures r.harvested ==> r.harvestedG == HarvestedMass(cfg, Stepped(r.growthRate, x))
    ensures !r.harvested ==> r.harvestedG == 0.0
  {
    var mu := rate(m, x);
    var productivity := ArealProductivity(cfg, mu, x);
    var co2Kg := DailyCo2(cfg, sp, mu, x);
    var stepped := Stepped(mu, x);
    if stepped >= cfg.harvestThreshold then
      DayRecord(mu, productivity, co2Kg, cfg.initialBiomass, true, HarvestedMass(cfg, stepped))
    else
      DayRecord(mu, productivity, co2Kg, stepped, false, 0.0)
  }

  /** The biomass after the recorded days t (the initial biomass before the first day). */
  function BiomassAfter(cfg: SimulationConfig, t: seq<DayRecord>): real
  {
    if t == [] then cfg.initialBiomass else t[|t| - 1].biomass
  }

  /** The records of the days spent in the months ms, one per day, each started from the previous day's biomass. */
  function Trajectory(cfg: SimulationConfig, sp: SpeciesParams, rate: GrowthRate, ms: seq<MonthlyClimate>): (t: seq<DayRecord>)
    ensures |t| == |ms|
    decreases |ms|
  {
    if ms == [] then []
    else
      var before := Trajectory(cfg, sp, rate, ms[..|ms| - 1]);
      before + [EulerDay(cfg, sp, rate, ms[|ms| - 1], BiomassAfter(cfg, before))]
  }

  /** The real-valued daily lists a day record contributes to. */
  datatype Column = GrowthRateColumn | ProductivityColumn | Co2Column | BiomassColumn

  function Value(r: DayRecord, c: Column): real
  {
    match c
    case GrowthRateColumn => r.growthRate
    case ProductivityColumn => r.productivity
    case Co2Column => r.co2Kg
    case BiomassColumn => r.biomass
  }

  /** Column c of the records t, one entry per day in day order. */
  function Col(t: seq<DayRecord>, c: Column): (col: seq<real>)
    ensures |col| == |t|
    decreases |t|
  {
    if t == [] then [] else Col(t[..|t| - 1], c) + [Value(t[|t| - 1], c)]
  }

  /** The day numbers 0.0, 1.0, ... of the first n days. */
  function TimeAxis(n: nat): (ts: seq<real>)
    ensures |ts| == n
  {
    if n == 0 then [] else TimeAxis(n - 1) + [(n - 1) as real]
  }

  /** Indices of the harvest days among the records t. */
  function HarvestDays(t: seq<DayRecord>): seq<int>
    decreases |t|
  {
    if t == [] then []
    else HarvestDays(t[..|t| - 1]) + (if t[|t| - 1].harvested then [|t| - 1] else [])
  }

  /** Total mass removed by the harvests of t [g]. */
  function HarvestedTotal(t: seq<DayRecord>): real
    decreases |t|
  {
    if t == [] then 0.0 else HarvestedTotal(t[..|t| - 1]) + t[|t| - 1].harvestedG
  }

  /** Every warning raised, day after day, before deduplication. */
  function AllWarnings(t: seq<DayRecord>, warn: ProductivityWarnings): seq<string>
    decreases |t|
  {
    if t == [] then [] else AllWarnings(t[..|t| - 1], warn) + warn(t[|t| - 1].productivity)
  }

  /** The keys of both seasonal dictionaries, named by SeasonOrder. */
  datatype Season = Dry | Hot | Monsoon

  function SeasonName(s: Season): string
  {
    match s
    case Dry => "dry"
    case Hot => "hot"
    case Monsoon => "monsoon"
  }

  /** The dictionary key a month's season name selects; None for a name that is not a key. */
  function ParseSeason(name: string): (r: Option<Season>)
    ensures r.Some? ==> SeasonName(r.value) == name
  {
    if name == "dry" then Some(Dry)
    else if name == "hot" then Some(Hot)
    else if name == "monsoon" then Some(Monsoon)
    else None
  }

  predicate KnownSeason(name: string)
  {
    ParseSeason(name).Some?
  }

  /** The dictionary key of each day's season name, day by day. */
  function SeasonLabels(ms: seq<MonthlyClimate>): (ls: seq<Option<Season>>)
    ensures |ls| == |ms|
  {
    seq(|ms|, d requires 0 <= d < |ms| => ParseSeason(ms[d].season))
  }

  /** The values xs[d] of the days d labelled with season s, in day order. */
  function SeasonValues(xs: seq<real>, ls: seq<Option<Season>>, s: Season): seq<real>
    requires |xs| == |ls|
    decreases |xs|
  {
    if xs == [] then []
    else SeasonValues(xs[..|xs| - 1], ls[..|ls| - 1], s) + (if ls[|ls| - 1] == Some(s) then [xs[|xs| - 1]] else [])
  }

  /** In the order of SeasonOrder, the sum of the daily values of each season. */
  function SeasonTotals(xs: seq<real>, ls: seq<Option<Season>>): seq<real>
    requires |xs| == |ls|
  {
    [Sum(SeasonValues(xs, ls, Dry)), Sum(SeasonValues(xs, ls, Hot)), Sum(SeasonValues(xs, ls, Monsoon))]
  }

  /** In the order of SeasonOrder, the mean of the daily values of each season (0.0 for a season with no day). */
  function SeasonMeans(xs: seq<real>, ls: seq<Option<Season>>): seq<real>
    requires |xs| == |ls|
  {
    [Mean(SeasonValues(xs, ls, Dry)), Mean(SeasonValues(xs, ls, Hot)), Mean(SeasonValues(xs, ls, Monsoon))]
  }

  /** The season of the first day whose season the breakdown does not know. */
  function FirstUnknownSeason(ms: seq<MonthlyClimate>): Option<string>
  {
    if ms == [] then None
    else if !KnownSeason(ms[0].season) then Some(ms[0].season)
    else FirstUnknownSeason(ms[1..])
  }

  /** Every day's month index names a month of the profile. */
  predicate InRange(climate: CityClimate, dayMap: seq<int>)
  {
    forall d :: 0 <= d < |dayMap| ==> 0 <= dayMap[d] < |climate.months|
  }

  /** The months of the profile the days fall in. */
  function Visited(climate: CityClimate, dayMap: seq<int>): (ms: seq<MonthlyClimate>)
    requires InRange(climate, dayMap)
    ensures |ms| == |dayMap|
  {
    seq(|dayMap|, d requires 0 <= d < |dayMap| => climate.months[dayMap[d]])
  }

  /** The exception a run raises, in the order the engine would meet them; None when it returns. */
  function SimulationError(cfg: SimulationConfig, climate: CityClimate): Option<EngineError>
  {
    if !(1 <= cfg.startMonth <= 12) then Some(IllegalMonth(cfg.startMonth))
    else
      var dayMap := DayMap(cfg.startMonth, cfg.durationDays);
      if !InRange(climate, dayMap) then Some(MonthIndexOutOfRange)
      else if dayMap != [] && cfg.surfaceArea == 0.0 then Some(DivisionByZero)
      else match FirstUnknownSeason(Visited(climate, dayMap))
        case Some(s) => Some(UnknownSeason(s))
        case None => None
  }

  /** The months visited by a run that raises nothing. */
  function RunMonths(cfg: SimulationConfig, climate: CityClimate): (ms: seq<MonthlyClimate>)
    requires SimulationError(cfg, climate) == None
    ensures |ms| == RangeLength(cfg.durationDays)
  {
    Visited(climate, DayMap(cfg.startMonth, cfg.durationDays))
  }

  /** The daily series of the main loop. */
  datatype DailySeries = DailySeries(
    timeDays: seq<real>, biomass: seq<real>, growthRate: seq<real>, co2Daily: seq<real>,
    productivity: seq<real>, warnings: seq<string>, harvestDays: seq<int>, harvestCount: int,
    totalHarvestedG: real)

  /** s holds, list by list, the records of the days spent in ms. */
  predicate DescribesDays(s: DailySeries, cfg: SimulationConfig, sp: SpeciesParams, ms: seq<MonthlyClimate>,
                          rate: GrowthRate, warn: ProductivityWarnings)
  {
    var t := Trajectory(cfg, sp, rate, ms);
    && s.timeDays == TimeAxis(|t|)
    && s.biomass == Col(t, BiomassColumn) && s.growthRate == Col(t, GrowthRateColumn)
    && s.co2Daily == Col(t, Co2Column) && s.productivity == Col(t, ProductivityColumn)
    && s.harvestDays == HarvestDays(t) && s.harvestCount == |s.harvestDays|
    && s.totalHarvestedG == HarvestedTotal(t)
    && s.warnings == AllWarnings(t, warn)
  }

  /**
   * The running CO2 total after each day, converted from kg to g per m2 of surface area
   * (area must not be zero for a non-empty series).
   */
  predicate IsCumulative(cumulative: seq<real>, co2Daily: seq<real>, area: real)
  {
    && |cumulative| == |co2Daily|
    && (co2Daily != [] ==> area != 0.0)
    && forall i :: 0 <= i < |co2Daily| ==> cumulative[i] == Sum(co2Daily[..i + 1]) * 1000.0 / area
  }

  /** res is what run_simulation returns for this configuration, species, climate, rate and warnings. */
  predicate IsRunOf(res: SimulationResult, cfg: SimulationConfig, sp: SpeciesParams, climate: CityClimate,
                    rate: GrowthRate, warn: ProductivityWarnings)
    requires SimulationError(cfg, climate) == None
  {
    var ms := RunMonths(cfg, climate);
    var t := Trajectory(cfg, sp, rate, ms);
    && res.timeDays == TimeAxis(|t|)
    && res.biomassConcentration == Col(t, BiomassColumn) && res.growthRateDaily == Col(t, GrowthRateColumn)
    && res.co2CapturedDaily == Col(t, Co2Column) && res.productivityAreal == Col(t, ProductivityColumn)
    && res.harvestDays == HarvestDays(t) && res.harvestCount == |res.harvestDays|
    && res.totalBiomassHarvestedKg == HarvestedTotal(t) / 1000.0
    && res.warnings == SortedUnique(AllWarnings(t, warn))
    && res.totalCo2CapturedKg == Sum(res.co2CapturedDaily)
    && res.totalCo2CapturedTco2e == res.totalCo2CapturedKg / 1000.0
    && res.avgDailyProductivity == Mean(res.productivityAreal)
    && IsCumulative(res.co2CapturedCumulative, res.co2CapturedDaily, cfg.surfaceArea)
    && res.seasonalCo2 == SeasonTotals(res.co2CapturedDaily, SeasonLabels(ms))
    && res.seasonalProductivity == SeasonMeans(res.productivityAreal, SeasonLabels(ms))
    && res.parametersUsed == sp && res.durationDays == cfg.durationDays && res.startMonth == cfg.startMonth
  }

  // ----- Facts about the trajectory and its lists -----

  lemma TrajectorySnoc(cfg: SimulationConfig, sp: SpeciesParams, rate: GrowthRate, ms: seq<MonthlyClimate>, m: MonthlyClimate)
    ensures Trajectory(cfg, sp, rate, ms + [m])
         == Trajectory(cfg, sp, rate, ms) + [EulerDay(cfg, sp, rate, m, BiomassAfter(cfg, Trajectory(cfg, sp, rate, ms)))]
  {
    assert (ms + [m])[..|ms|] == ms;
  }

  /** Appending a day's record appends its entry to every list of the main loop. */
  lemma RecordSnoc(t: seq<DayRecord>, rec: DayRecord, warn: ProductivityWarnings)
    ensures forall c :: Col(t + [rec], c) == Col(t, c) + [Value(rec, c)]
    ensures HarvestDays(t + [rec]) == HarvestDays(t) + (if rec.harvested then [|t|] else [])
    ensures HarvestedTotal(t + [rec]) == HarvestedTotal(t) + rec.harvestedG
    ensures AllWarnings(t + [rec], warn) == AllWarnings(t, warn) + warn(rec.productivity)
  {
    assert (t + [rec])[..|t|] == t;
  }

  lemma {:induction false} TrajectoryPrefix(cfg: SimulationConfig, sp: SpeciesParams, rate: GrowthRate, ms: seq<MonthlyClimate>, k: nat)
    requires k <= |ms|
    ensures Trajectory(cfg, sp, rate, ms)[..k] == Trajectory(cfg, sp, rate, ms[..k])
    decreases |ms|
  {
    if k < |ms| {
      var init := ms[..|ms| - 1];
      TrajectoryPrefix(cfg, sp, rate, init, k);
      assert init[..k] == ms[..k];
      assert Trajectory(cfg, sp, rate, ms)[..|ms| - 1] == Trajectory(cfg, sp, rate, init);
    } else {
      assert ms[..k] == ms;
    }
  }

  /** Day d of the trajectory is one Euler day from the biomass the previous day ended with. */
  lemma TrajectoryStep(cfg: SimulationConfig, sp: SpeciesParams, rate: GrowthRate, ms: seq<MonthlyClimate>, d: nat)
    requires d < |ms|
    ensures var t := Trajectory(cfg, sp, rate, ms);
            t[d] == EulerDay(cfg, sp, rate, ms[d], if d == 0 then cfg.initialBiomass else t[d - 1].biomass)
  {
    var t := Trajectory(cfg, sp, rate, ms);
    TrajectoryPrefix(cfg, sp, rate, ms, d + 1);
    TrajectoryPrefix(cfg, sp, rate, ms, d);
    var upTo := ms[..d + 1];
    assert upTo[..d] == ms[..d];
    assert t[d] == Trajectory(cfg, sp, rate, upTo)[d];
    assert Trajectory(cfg, sp, rate, upTo)[..d] == Trajectory(cfg, sp, rate, ms[..d]);
  }

  /** Entry d of a column is the value of day d's record. */
  lemma {:induction false} ColIndex(t: seq<DayRecord>, c: Column)
    ensures forall d :: 0 <= d < |t| ==> Col(t, c)[d] == Value(t[d], c)
    decreases |t|
  {
    if t != [] {
      var init := t[..|t| - 1];
      ColIndex(init, c);
      assert forall d :: 0 <= d < |init| ==> init[d] == t[d];
    }
  }

  /** Entry d of the time axis is d. */
  lemma {:induction false} TimeAxisIndex(n: nat)
    ensures forall d :: 0 <= d < n ==> TimeAxis(n)[d] == d as real
  {
    if n > 0 {
      TimeAxisIndex(n - 1);
    }
  }

  /** Harvest days are increasing day indices, and a day is one exactly when it was harvested. */
  lemma {:induction false} HarvestDaysFacts(t: seq<DayRecord>)
    ensures forall k :: 0 <= k < |HarvestDays(t)| ==> 0 <= HarvestDays(t)[k] < |t|
    ensures forall k, l :: 0 <= k < l < |HarvestDays(t)| ==> HarvestDays(t)[k] < HarvestDays(t)[l]
    ensures forall d :: 0 <= d < |t| ==> (d in HarvestDays(t) <==> t[d].harvested)
    decreases |t|
  {
    if t != [] {
      var init := t[..|t| - 1];
      HarvestDaysFacts(init);
      assert forall d :: 0 <= d < |init| ==> init[d] == t[d];
    }
  }

  /** A warning is in the undeduplicated list exactly when some day raised it. */
  lemma {:induction false} AllWarningsFacts(t: seq<DayRecord>, warn: ProductivityWarnings)
    ensures forall w :: w in AllWarnings(t, warn) <==> exists d :: 0 <= d < |t| && w in warn(t[d].productivity)
    decreases |t|
  {
    if t != [] {
      var init := t[..|t| - 1];
      AllWarningsFacts(init, warn);
      assert forall d :: 0 <= d < |init| ==> init[d] == t[d];
    }
  }

  // ----- Facts about the seasonal split -----

  /** The season names of SeasonOrder are exactly the names ParseSeason accepts, and it reads each back. */
  lemma ParseSeasonNames()
    ensures forall name :: KnownSeason(name) <==> name in SeasonOrder
    ensures forall k :: 0 <= k < |SeasonOrder| ==> SeasonName([Dry, Hot, Monsoon][k]) == SeasonOrder[k]
    ensures forall s :: ParseSeason(SeasonName(s)) == Some(s)
  {
    forall name
      ensures KnownSeason(name) <==> name in SeasonOrder
    {
      if name in SeasonOrder {
        var k :| 0 <= k < |SeasonOrder| && SeasonOrder[k] == name;
        assert k == 0 || k == 1 || k == 2;
      }
    }
  }

  lemma SeasonValuesStep(xs: seq<real>, ls: seq<Option<Season>>, day: nat, s: Season)
    requires |xs| == |ls| && day < |xs|
    ensures ls[day] == Some(s) ==> SeasonValues(xs[..day + 1], ls[..day + 1], s) == SeasonValues(xs[..day], ls[..day], s) + [xs[day]]
    ensures ls[day] != Some(s) ==> SeasonValues(xs[..day + 1], ls[..day + 1], s) == SeasonValues(xs[..day], ls[..day], s)
    ensures Sum(SeasonValues(xs[..day + 1], ls[..day + 1], s))
         == Sum(SeasonValues(xs[..day], ls[..day], s)) + (if ls[day] == Some(s) then xs[day] else 0.0)
  {
    assert xs[..day + 1][..day] == xs[..day];
    assert ls[..day + 1][..day] == ls[..day];
    var before := SeasonValues(xs[..day], ls[..day], s);
    if ls[day] == Some(s) {
      SumAppend(before, xs[day]);
    } else {
      assert before + [] == before;
    }
  }

  /** Adding the last day to the days already split by season. */
  lemma SeasonSumStep(xs: seq<real>, ls: seq<Option<Season>>, s: Season)
    requires |xs| == |ls| && xs != []
    ensures var n := |xs|;
            && Sum(SeasonValues(xs, ls, s))
               == Sum(SeasonValues(xs[..n - 1], ls[..n - 1], s)) + (if ls[n - 1] == Some(s) then xs[n - 1] else 0.0)
            && |SeasonValues(xs, ls, s)| == |SeasonValues(xs[..n - 1], ls[..n - 1], s)| + (if ls[n - 1] == Some(s) then 1 else 0)
  {
    var n := |xs|;
    var before := SeasonValues(xs[..n - 1], ls[..n - 1], s);
    if ls[n - 1] == Some(s) {
      SumAppend(before, xs[n - 1]);
    } else {
      assert SeasonValues(xs, ls, s) == before + [];
      assert before + [] == before;
    }
  }

  /** When every day has a season, the seasonal sums add up to the sum over all days. */
  lemma {:induction false} SeasonSumsAddUp(xs: seq<real>, ls: seq<Option<Season>>)
    requires |xs| == |ls|
    requires forall d :: 0 <= d < |ls| ==> ls[d].Some?
    ensures Sum(SeasonValues(xs, ls, Dry)) + Sum(SeasonValues(xs, ls, Hot)) + Sum(SeasonValues(xs, ls, Monsoon)) == Sum(xs)
    ensures |SeasonValues(xs, ls, Dry)| + |SeasonValues(xs, ls, Hot)| + |SeasonValues(xs, ls, Monsoon)| == |xs|
    decreases |xs|
  {
    if xs != [] {
      var n := |xs|;
      SeasonSumsAddUp(xs[..n - 1], ls[..n - 1]);
      SeasonSumStep(xs, ls, Dry);
      SeasonSumStep(xs, ls, Hot);
      SeasonSumStep(xs, ls, Monsoon);
      var last := ls[n - 1].value;
      assert last == Dry || last == Hot || last == Monsoon;
    }
  }

  /** No unknown season is met exactly when every day's season is known. */
  lemma {:induction false} FirstUnknownSeasonNone(ms: seq<MonthlyClimate>)
    ensures FirstUnknownSeason(ms) == None <==> forall d :: 0 <= d < |ms| ==> KnownSeason(ms[d].season)
    decreases |ms|
  {
    if ms != [] {
      FirstUnknownSeasonNone(ms[1..]);
      assert forall d :: 0 < d < |ms| ==> ms[d] == ms[1..][d - 1];
    }
  }

  /** The first unknown season is that of the first day whose season is not known. */
  lemma {:induction false} FirstUnknownSeasonAt(ms: seq<MonthlyClimate>, i: nat)
    requires i < |ms| && !KnownSeason(ms[i].season)
    requires forall d :: 0 <= d < i ==> KnownSeason(ms[d].season)
    ensures FirstUnknownSeason(ms) == Some(ms[i].season)
    decreases i
  {
    if i > 0 {
      assert ms[1..][i - 1] == ms[i];
      assert forall d :: 0 <= d < i - 1 ==> ms[1..][d] == ms[d + 1];
      FirstUnknownSeasonAt(ms[1..], i - 1);
    }
  }

  /** The CO2 dictionary holds, per season, the sum of the first `day` days of that season. */
  predicate Co2Tallied(co2PerSeason: map<Season, real>, co2Daily: seq<real>, ls: seq<Option<Season>>, day: nat)
    requires |co2Daily| == |ls| && day <= |ls|
  {
    forall s: Season :: s in co2PerSeason && co2PerSeason[s] == Sum(SeasonValues(co2Daily[..day], ls[..day], s))
  }

  /** The productivity dictionary holds, per season, the list of the first `day` days of that season. */
  predicate ProductivityTallied(productivityPerSeason: map<Season, seq<real>>, productivityDaily: seq<real>,
                                ls: seq<Option<Season>>, day: nat)
    requires |productivityDaily| == |ls| && day <= |ls|
  {
    forall s: Season :: s in productivityPerSeason && productivityPerSeason[s] == SeasonValues(productivityDaily[..day], ls[..day], s)
  }

  /** Before the first day every season has a zero total and an empty list. */
  lemma TalliesStart(co2Daily: seq<real>, productivityDaily: seq<real>, ls: seq<Option<Season>>)
    requires |co2Daily| == |ls| && |productivityDaily| == |ls|
    ensures Co2Tallied(map[Dry := 0.0, Hot := 0.0, Monsoon := 0.0], co2Daily, ls, 0)
    ensures ProductivityTallied(map[Dry := [], Hot := [], Monsoon := []], productivityDaily, ls, 0)
  {
    assert co2Daily[..0] == [] && productivityDaily[..0] == [] && ls[..0] == [];
    var c: map<Season, real> := map[Dry := 0.0, Hot := 0.0, Monsoon := 0.0];
    var p: map<Season, seq<real>> := map[Dry := [], Hot := [], Monsoon := []];
    forall s: Season
      ensures s in c && s in p
    {
      assert s == Dry || s == Hot || s == Monsoon;
    }
  }

  /** A day of season s adds its CO2 to the total of s and leaves the other totals alone. */
  lemma Co2TalliedStep(co2PerSeason: map<Season, real>, co2Daily: seq<real>, ls: seq<Option<Season>>, day: nat, s: Season)
    requires |co2Daily| == |ls| && day < |ls| && Co2Tallied(co2PerSeason, co2Daily, ls, day)
    requires ls[day] == Some(s)
    ensures s in co2PerSeason
    ensures Co2Tallied(co2PerSeason[s := co2PerSeason[s] + co2Daily[day]], co2Daily, ls, day + 1)
  {
    var updated := co2PerSeason[s := co2PerSeason[s] + co2Daily[day]];
    forall k: Season
      ensures k in updated && updated[k] == Sum(SeasonValues(co2Daily[..day + 1], ls[..day + 1], k))
    {
      SeasonValuesStep(co2Daily, ls, day, k);
    }
  }

  /** A day of season s appends its productivity to the list of s and leaves the other lists alone. */
  lemma ProductivityTalliedStep(productivityPerSeason: map<Season, seq<real>>, productivityDaily: seq<real>,
                                ls: seq<Option<Season>>, day: nat, s: Season)
    requires |productivityDaily| == |ls| && day < |ls| && ProductivityTallied(productivityPerSeason, productivityDaily, ls, day)
    requires ls[day] == Some(s)
    ensures s in productivityPerSeason
    ensures ProductivityTallied(productivityPerSeason[s := productivityPerSeason[s] + [productivityDaily[day]]],
                                productivityDaily, ls, day + 1)
  {
    var updated := productivityPerSeason[s := productivityPerSeason[s] + [productivityDaily[day]]];
    forall k: Season
      ensures k in updated && updated[k] == SeasonValues(productivityDaily[..day + 1], ls[..day + 1], k)
    {
      SeasonValuesStep(productivityDaily, ls, day, k);
    }
  }

  lemma DivisionDistributes(a: real, b: real, area: real)
    requires area != 0.0
    ensures a * 1000.0 / area + b * 1000.0 / area == (a + b) * 1000.0 / area
  {
  }

  /** One more day of the running total: add the day's CO2 converted to g per m2. */
  lemma RunningTotalStep(xs: seq<real>, i: nat, area: real)
    requires i < |xs| && area != 0.0
    ensures Sum(xs[..i]) * 1000.0 / area + xs[i] * 1000.0 / area == Sum(xs[..i + 1]) * 1000.0 / area
  {
    assert xs[..i + 1] == xs[..i] + [xs[i]];
    SumAppend(xs[..i], xs[i]);
    DivisionDistributes(Sum(xs[..i]), xs[i], area);
  }

  /** A run's result has the shape the field documentation of SimulationResult fixes. */
  lemma RunIsWellFormed(res: SimulationResult, cfg: SimulationConfig, sp: SpeciesParams, climate: CityClimate,
                        rate: GrowthRate, warn: ProductivityWarnings)
    requires SimulationError(cfg, climate) == None
    requires IsRunOf(res, cfg, sp, climate, rate, warn)
    ensures res.WellFormed()
  {
    var t := Trajectory(cfg, sp, rate, RunMonths(cfg, climate));
    HarvestDaysFacts(t);
    TimeAxisIndex(|t|);
  }

  // ----- The engine -----

  /** ms are the months of the first |ms| days of dayMap, all inside the profile. */
  predicate VisitedSoFar(climate: CityClimate, dayMap: seq<int>, ms: seq<MonthlyClimate>)
  {
    && |ms| <= |dayMap|
    && forall d :: 0 <= d < |ms| ==> 0 <= dayMap[d] < |climate.months| && ms[d] == climate.months[dayMap[d]]
  }

  lemma VisitedSnoc(climate: CityClimate, dayMap: seq<int>, ms: seq<MonthlyClimate>)
    requires VisitedSoFar(climate, dayMap, ms) && |ms| < |dayMap| && 0 <= dayMap[|ms|] < |climate.months|
    ensures VisitedSoFar(climate, dayMap, ms + [climate.months[dayMap[|ms|]]])
  {
  }

  lemma VisitedAll(climate: CityClimate, dayMap: seq<int>, ms: seq<MonthlyClimate>)
    requires VisitedSoFar(climate, dayMap, ms) && |ms| == |dayMap|
    ensures InRange(climate, dayMap) && ms == Visited(climate, dayMap)
  {
  }

  /**
   * One day of the main loop: the net growth rate at the current biomass, the areal
   * productivity and the CO2 captured (positive growth only) from the biomass before the
   * step, the Euler step of one day floored at zero, and the harvest reset at the threshold.
   */
  method SimulateDay(cfg: SimulationConfig, sp: SpeciesParams, rate: GrowthRate, month: MonthlyClimate,
                     biomass: real, volumeLiters: real)
    returns (muNet: real, dailyArealProductivity: real, dailyCo2Kg: real, biomassNew: real,
             harvested: bool, harvestedG: real)
    requires volumeLiters == VolumeLiters(cfg)
    ensures DayRecord(muNet, dailyArealProductivity, dailyCo2Kg, biomassNew, harvested, harvestedG)
         == EulerDay(cfg, sp, rate, month, biomass)
  {
    muNet := rate(month, biomass);
    dailyArealProductivity := muNet * biomass * cfg.depth * 1000.0;
    if muNet > 0.0 {
      dailyCo2Kg := muNet * biomass * volumeLiters * sp.co2ToBiomassRatio / 1000.0;
    } else {
      dailyCo2Kg := 0.0;
    }
    biomassNew := biomass + muNet * biomass * 1.0;
    biomassNew := Max(biomassNew, 0.0);
    harvested := biomassNew >= cfg.harvestThreshold;
    harvestedG := 0.0;
    if harvested {
      harvestedG := (biomassNew - cfg.initialBiomass) * volumeLiters;
      biomassNew := cfg.initialBiomass;
    }
  }

  /**
   * The main loop of run_simulation: per day, look up the month, take the growth rate at the
   * current biomass, record productivity and CO2 from the pre-step biomass, step, floor at
   * zero, harvest at the threshold, and append to the daily lists.
   */
  method RunDays(cfg: SimulationConfig, sp: SpeciesParams, climate: CityClimate, dayMap: seq<int>,
                 rate: GrowthRate, warn: ProductivityWarnings) returns (r: Result<DailySeries, EngineError>)
    requires forall d :: 0 <= d < |dayMap| ==> 0 <= dayMap[d]
    ensures r.Failure? <==> !InRange(climate, dayMap)
    ensures r.Failure? ==> r.error == MonthIndexOutOfRange
    ensures r.Success? ==> DescribesDays(r.value, cfg, sp, Visited(climate, dayMap), rate, warn)
  {
    var biomass := cfg.initialBiomass;
    var totalHarvestedBiomassG := 0.0;
    var harvestCount := 0;
    var harvestDays: seq<int> := [];
    var timeDays: seq<real> := [];
    var biomassDaily: seq<real> := [];
    var growthRateDaily: seq<real> := [];
    var co2Daily: seq<real> := [];
    var productivityDaily: seq<real> := [];
    var allWarnings: seq<string> := [];
    var volumeLiters := cfg.surfaceArea * cfg.depth * 1000.0;
    ghost var ms: seq<MonthlyClimate> := [];
    ghost var t: seq<DayRecord> := [];
    var day := 0;
    while day < |dayMap|
      invariant 0 <= day <= |dayMap| && |ms| == day
      invariant VisitedSoFar(climate, dayMap, ms)
      invariant t == Trajectory(cfg, sp, rate, ms)
      invariant biomass == BiomassAfter(cfg, t)
      invariant timeDays == TimeAxis(day)
      invariant biomassDaily == Col(t, BiomassColumn) && growthRateDaily == Col(t, GrowthRateColumn)
      invariant co2Daily == Col(t, Co2Column) && productivityDaily == Col(t, ProductivityColumn)
      invariant harvestDays == HarvestDays(t) && harvestCount == |harvestDays|
      invariant totalHarvestedBiomassG == HarvestedTotal(t)
      invariant allWarnings == AllWarnings(t, warn)
    {
      if dayMap[day] >= |climate.months| {
        return Failure(MonthIndexOutOfRange);
      }
      var month := climate.months[dayMap[day]];
      var muNet, dailyArealProductivity, dailyCo2Kg, biomassNew, harvested, harvestedG :=
        SimulateDay(cfg, sp, rate, month, biomass, volumeLiters);
      ghost var rec := EulerDay(cfg, sp, rate, month, biomass);
      if harvested {
        totalHarvestedBiomassG := totalHarvestedBiomassG + harvestedG;
        harvestCount := harvestCount + 1;
        harvestDays := harvestDays + [day];
      }
      timeDays := timeDays + [day as real];
      biomassDaily := biomassDaily + [biomassNew];
      growthRateDaily := growthRateDaily + [muNet];
      co2Daily := co2Daily + [dailyCo2Kg];
      productivityDaily := productivityDaily + [dailyArealProductivity];
      allWarnings := allWarnings + warn(dailyArealProductivity);
      biomass := biomassNew;

      TrajectorySnoc(cfg, sp, rate, ms, month);
      RecordSnoc(t, rec, warn);
      VisitedSnoc(climate, dayMap, ms);
      ms := ms + [month];
      t := t + [rec];
      day := day + 1;
    }
    VisitedAll(climate, dayMap, ms);
    r := Success(DailySeries(timeDays, biomassDaily, growthRateDaily, co2Daily, productivityDaily,
                             allWarnings, harvestDays, harvestCount, totalHarvestedBiomassG));
  }

  /**
   * The cumulative CO2 series of run_simulation: a running total of each day's CO2 converted
   * from kg to g per m2 of surface; dividing by a zero area raises.
   */
  method CumulativeCo2(co2Daily: seq<real>, surfaceArea: real) returns (r: Result<seq<real>, EngineError>)
    ensures r.Failure? <==> surfaceArea == 0.0 && co2Daily != []
    ensures r.Failure? ==> r.error == DivisionByZero
    ensures r.Success? ==> IsCumulative(r.value, co2Daily, surfaceArea)
  {
    var co2Cumulative: seq<real> := [];
    var runningCo2 := 0.0;
    var i := 0;
    while i < |co2Daily|
      invariant 0 <= i <= |co2Daily| && |co2Cumulative| == i
      invariant i > 0 ==> surfaceArea != 0.0
      invariant surfaceArea != 0.0 ==> runningCo2 == Sum(co2Daily[..i]) * 1000.0 / surfaceArea
      invariant forall j :: 0 <= j < i ==> co2Cumulative[j] == Sum(co2Daily[..j + 1]) * 1000.0 / surfaceArea
    {
      var dailyKg := co2Daily[i];
      if surfaceArea == 0.0 {
        return Failure(DivisionByZero);
      }
      RunningTotalStep(co2Daily, i, surfaceArea);
      runningCo2 := runningCo2 + dailyKg * 1000.0 / surfaceArea;
      co2Cumulative := co2Cumulative + [runningCo2];
      i := i + 1;
    }
    r := Success(co2Cumulative);
  }

  /**
   * The seasonal breakdown of run_simulation: per day, the CO2 is added to its season's total
   * and the productivity to its season's list; a season other than dry, hot and monsoon raises.
   */
  method SeasonalBreakdown(climate: CityClimate, dayMap: seq<int>, co2Daily: seq<real>, productivityDaily: seq<real>)
    returns (r: Result<(seq<real>, seq<real>), EngineError>)
    requires InRange(climate, dayMap)
    requires |co2Daily| == |dayMap| && |productivityDaily| == |dayMap|
    ensures r.Failure? <==> FirstUnknownSeason(Visited(climate, dayMap)).Some?
    ensures r.Failure? ==> r.error == UnknownSeason(FirstUnknownSeason(Visited(climate, dayMap)).value)
    ensures r.Success? ==> r.value.0 == SeasonTotals(co2Daily, SeasonLabels(Visited(climate, dayMap)))
    ensures r.Success? ==> r.value.1 == SeasonMeans(productivityDaily, SeasonLabels(Visited(climate, dayMap)))
  {
    ghost var ms := Visited(climate, dayMap);
    ghost var ls := SeasonLabels(ms);
    var co2PerSeason: map<Season, real> := map[Dry := 0.0, Hot := 0.0, Monsoon := 0.0];
    var productivityPerSeason: map<Season, seq<real>> := map[Dry := [], Hot := [], Monsoon := []];
    TalliesStart(co2Daily, productivityDaily, ls);
    var day := 0;
    while day < |dayMap|
      invariant 0 <= day <= |dayMap|
      invariant Co2Tallied(co2PerSeason, co2Daily, ls, day)
      invariant ProductivityTallied(productivityPerSeason, productivityDaily, ls, day)
      invariant forall d :: 0 <= d < day ==> KnownSeason(ms[d].season)
    {
      var name := climate.months[dayMap[day]].season;
      assert name == ms[day].season;
      var season := ParseSeason(name);
      assert season == ls[day];
      if season.None? {
        FirstUnknownSeasonAt(ms, day);
        return Failure(UnknownSeason(name));
      }
      var s := season.value;
      Co2TalliedStep(co2PerSeason, co2Daily, ls, day, s);
      ProductivityTalliedStep(productivityPerSeason, productivityDaily, ls, day, s);
      co2PerSeason := co2PerSeason[s := co2PerSeason[s] + co2Daily[day]];
      productivityPerSeason := productivityPerSeason[s := productivityPerSeason[s] + [productivityDaily[day]]];
      day := day + 1;
    }
    assert co2Daily[..day] == co2Daily && productivityDaily[..day] == productivityDaily && ls[..day] == ls;
    FirstUnknownSeasonNone(ms);
    var seasonalCo2 := [co2PerSeason[Dry], co2PerSeason[Hot], co2PerSeason[Monsoon]];
    var seasonalProductivity :=
      [Mean(productivityPerSeason[Dry]), Mean(productivityPerSeason[Hot]), Mean(productivityPerSeason[Monsoon])];
    r := Success((seasonalCo2, seasonalProductivity));
  }

  /**
   * run_simulation: the calendar walk, the main loop, the totals, the cumulative series, the
   * seasonal breakdown and the deduplicated warnings, or the exception the run raises.
   */
  method RunSimulation(config: SimulationConfig, species: SpeciesParams, climate: CityClimate,
                       rate: GrowthRate, warn: ProductivityWarnings) returns (r: Result<SimulationResult, EngineError>)
    ensures r.Failure? <==> SimulationError(config, climate).Some?
    ensures r.Failure? ==> SimulationError(config, climate) == Some(r.error)
    ensures r.Success? ==> IsRunOf(r.value, config, species, climate, rate, warn)
    ensures r.Success? ==> r.value.WellFormed()
  {
    var dayMap := BuildDayToMonthMap(config.startMonth, config.durationDays);
    if dayMap.Failure? {
      return Failure(IllegalMonth(config.startMonth));
    }
    var dayToMonth := dayMap.value;
    var days := RunDays(config, species, climate, dayToMonth, rate, warn);
    if days.Failure? {
      return Failure(days.error);
    }
    var series := days.value;

    var totalCo2Kg := Sum(series.co2Daily);
    var totalCo2Tco2e := totalCo2Kg / 1000.0;
    var totalBiomassHarvestedKg := series.totalHarvestedG / 1000.0;
    var avgProductivity := Mean(series.productivity);

    var cumulative := CumulativeCo2(series.co2Daily, config.surfaceArea);
    if cumulative.Failure? {
      return Failure(cumulative.error);
    }
    var seasonal := SeasonalBreakdown(climate, dayToMonth, series.co2Daily, series.productivity);
    if seasonal.Failure? {
      return Failure(seasonal.error);
    }
    var uniqueWarnings := SortedUnique(series.warnings);

    r := Success(SimulationResult(
      timeDays := series.timeDays,
      biomassConcentration := series.biomass,
      productivityAreal := series.productivity,
      co2CapturedCumulative := cumulative.value,
      warnings := uniqueWarnings,
      parametersUsed := species,
      co2CapturedDaily := series.co2Daily,
      growthRateDaily := series.growthRate,
      harvestDays := series.harvestDays,
      totalCo2CapturedKg := totalCo2Kg,
      totalCo2CapturedTco2e := totalCo2Tco2e,
      totalBiomassHarvestedKg := totalBiomassHarvestedKg,
      harvestCount := series.harvestCount,
      avgDailyProductivity := avgProductivity,
      durationDays := config.durationDays,
      startMonth := config.startMonth,
      seasonalCo2 := seasonal.value.0,
      seasonalProductivity := seasonal.value.1));
    RunIsWellFormed(r.value, config, species, climate, rate, warn);
  }
}
