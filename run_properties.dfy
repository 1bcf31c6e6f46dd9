/**
 * What a run of the engine guarantees about the result it returns: the Euler recurrence
 * behind the daily series, the harvest cycle, non-negativity, the CO2 accounting between
 * daily, cumulative, seasonal and total values, and the deduplicated warnings.
 */
module RunProperties {
  import opened Wrappers
  import opened Series
  import opened StringOrder
  import opened Parameters
  import opened Calendar
  import opened GrowthModifier
  import opened Results
  import opened Engine

  /** The biomass a day of the run starts from: the initial biomass, then the previous day's. */
  function StartOfDay(res: SimulationResult, cfg: SimulationConfig, d: nat): real
    requires d <= |res.biomassConcentration|
  {
    if d == 0 then cfg.initialBiomass else res.biomassConcentration[d - 1]
  }

  /** Day d of a run falls in the month the day map gives it. */
  lemma RunMonthAt(cfg: SimulationConfig, climate: CityClimate, d: nat)
    requires SimulationError(cfg, climate) == None
    requires d < |RunMonths(cfg, climate)|
    ensures 0 <= MonthIndexAt(cfg.startMonth, d) < |climate.months|
    ensures RunMonths(cfg, climate)[d] == climate.months[MonthIndexAt(cfg.startMonth, d)]
  {
    var dayMap := DayMap(cfg.startMonth, cfg.durationDays);
    assert dayMap[d] == MonthIndexAt(cfg.startMonth, d);
  }

  /** Day d of the trajectory, column by column. */
  lemma DayOfTrajectory(cfg: SimulationConfig, sp: SpeciesParams, rate: GrowthRate, ms: seq<MonthlyClimate>, d: nat)
    requires d < |ms|
    ensures var t := Trajectory(cfg, sp, rate, ms);
            var x := if d == 0 then cfg.initialBiomass else Col(t, BiomassColumn)[d - 1];
            var mu := Col(t, GrowthRateColumn)[d];
            && mu == rate(ms[d], x)
            && Col(t, ProductivityColumn)[d] == ArealProductivity(cfg, mu, x)
            && Col(t, Co2Column)[d] == DailyCo2(cfg, sp, mu, x)
            && (t[d].harvested <==> Stepped(mu, x) >= cfg.harvestThreshold)
            && Col(t, BiomassColumn)[d] == (if t[d].harvested then cfg.initialBiomass else Stepped(mu, x))
            && t[d].harvestedG == (if t[d].harvested then HarvestedMass(cfg, Stepped(mu, x)) else 0.0)
  {
    var t := Trajectory(cfg, sp, rate, ms);
    ColIndex(t, BiomassColumn);
    ColIndex(t, GrowthRateColumn);
    ColIndex(t, ProductivityColumn);
    ColIndex(t, Co2Column);
    var x := if d == 0 then cfg.initialBiomass else Col(t, BiomassColumn)[d - 1];
    assert d > 0 ==> x == t[d - 1].biomass;
    TrajectoryStep(cfg, sp, rate, ms, d);
    var r := t[d];
    assert r == EulerDay(cfg, sp, rate, ms[d], x);
    assert Col(t, GrowthRateColumn)[d] == r.growthRate;
    assert Col(t, ProductivityColumn)[d] == r.productivity;
    assert Col(t, Co2Column)[d] == r.co2Kg;
    assert Col(t, BiomassColumn)[d] == r.biomass;
  }

  /** Every daily list of a run has one entry per day. */
  lemma RunLengths(res: SimulationResult, cfg: SimulationConfig, sp: SpeciesParams, climate: CityClimate,
                   rate: GrowthRate, warn: ProductivityWarnings)
    requires SimulationError(cfg, climate) == None
    requires IsRunOf(res, cfg, sp, climate, rate, warn)
    ensures var n := RangeLength(cfg.durationDays);
            && |res.timeDays| == n && |res.biomassConcentration| == n && |res.growthRateDaily| == n
            && |res.productivityAreal| == n && |res.co2CapturedDaily| == n && |res.co2CapturedCumulative| == n
  {
  }

  /** Day d of a run that returns, as the Euler recurrence gives it. */
  lemma DayOfRun(res: SimulationResult, cfg: SimulationConfig, sp: SpeciesParams, climate: CityClimate,
                 rate: GrowthRate, warn: ProductivityWarnings, d: nat)
    requires SimulationError(cfg, climate) == None
    requires IsRunOf(res, cfg, sp, climate, rate, warn)
    requires d < |res.biomassConcentration|
    ensures |res.biomassConcentration| == |res.growthRateDaily| == |res.productivityAreal| == |res.co2CapturedDaily|
    ensures var x := StartOfDay(res, cfg, d);
            var mu := res.growthRateDaily[d];
            && 0 <= MonthIndexAt(cfg.startMonth, d) < |climate.months|
            && mu == rate(climate.months[MonthIndexAt(cfg.startMonth, d)], x)
            && res.productivityAreal[d] == ArealProductivity(cfg, mu, x)
            && res.co2CapturedDaily[d]
               == DailyCo2(cfg, sp, mu, x)
            && (d in res.harvestDays <==> Stepped(mu, x) >= cfg.harvestThreshold)
            && res.biomassConcentration[d] == (if d in res.harvestDays then cfg.initialBiomass else Stepped(mu, x))
  {
    var ms := RunMonths(cfg, climate);
    var t := Trajectory(cfg, sp, rate, ms);
    assert res.biomassConcentration == Col(t, BiomassColumn);
    assert res.growthRateDaily == Col(t, GrowthRateColumn);
    assert res.productivityAreal == Col(t, ProductivityColumn);
    assert res.co2CapturedDaily == Col(t, Co2Column);
    assert res.harvestDays == HarvestDays(t);
    RunMonthAt(cfg, climate, d);
    DayOfTrajectory(cfg, sp, rate, ms, d);
    HarvestDaysFacts(t);
  }

  /**
   * The daily series follow the Euler recurrence: the rate is taken at the biomass the day
   * starts from, productivity and CO2 are booked from that biomass, and the day ends at the
   * initial biomass when the floored step reaches the threshold (a harvest day), at the
   * floored step otherwise.
   */
  lemma EulerRecurrence(res: SimulationResult, cfg: SimulationConfig, sp: SpeciesParams, climate: CityClimate,
                        rate: GrowthRate, warn: ProductivityWarnings)
    requires SimulationError(cfg, climate) == None
    requires IsRunOf(res, cfg, sp, climate, rate, warn)
    ensures |res.biomassConcentration| == |res.growthRateDaily| == |res.productivityAreal| == |res.co2CapturedDaily|
    ensures forall d :: 0 <= d < |res.biomassConcentration| ==>
              var x := StartOfDay(res, cfg, d);
              var mu := res.growthRateDaily[d];
              && 0 <= MonthIndexAt(cfg.startMonth, d) < |climate.months|
              && mu == rate(climate.months[MonthIndexAt(cfg.startMonth, d)], x)
              && res.productivityAreal[d] == ArealProductivity(cfg, mu, x)
              && res.co2CapturedDaily[d]
                 == DailyCo2(cfg, sp, mu, x)
              && (d in res.harvestDays <==> Stepped(mu, x) >= cfg.harvestThreshold)
              && res.biomassConcentration[d] == (if d in res.harvestDays then cfg.initialBiomass else Stepped(mu, x))
  {
    var t := Trajectory(cfg, sp, rate, RunMonths(cfg, climate));
    assert |res.biomassConcentration| == |t|;
    forall d | 0 <= d < |res.biomassConcentration|
      ensures var x := StartOfDay(res, cfg, d);
              var mu := res.growthRateDaily[d];
              && 0 <= MonthIndexAt(cfg.startMonth, d) < |climate.months|
              && mu == rate(climate.months[MonthIndexAt(cfg.startMonth, d)], x)
              && res.productivityAreal[d] == ArealProductivity(cfg, mu, x)
              && res.co2CapturedDaily[d]
                 == DailyCo2(cfg, sp, mu, x)
              && (d in res.harvestDays <==> Stepped(mu, x) >= cfg.harvestThreshold)
              && res.biomassConcentration[d] == (if d in res.harvestDays then cfg.initialBiomass else Stepped(mu, x))
    {
      DayOfRun(res, cfg, sp, climate, rate, warn, d);
    }
  }

  /** Biomass never goes negative when the run starts from a non-negative biomass, whatever the growth rate. */
  lemma BiomassNeverNegative(res: SimulationResult, cfg: SimulationConfig, sp: SpeciesParams, climate: CityClimate,
                             rate: GrowthRate, warn: ProductivityWarnings)
    requires SimulationError(cfg, climate) == None
    requires IsRunOf(res, cfg, sp, climate, rate, warn)
    requires cfg.initialBiomass >= 0.0
    ensures forall d :: 0 <= d < |res.biomassConcentration| ==> res.biomassConcentration[d] >= 0.0
  {
    forall d | 0 <= d < |res.biomassConcentration|
      ensures res.biomassConcentration[d] >= 0.0
    {
      DayOfRun(res, cfg, sp, climate, rate, warn, d);
    }
  }

  /**
   * The harvest cycle: every recorded biomass is below the threshold or equal to the initial
   * biomass, harvest days are the days reset to the initial biomass, listed once each in
   * increasing order within the run, and harvestCount counts them.
   */
  lemma HarvestCycle(res: SimulationResult, cfg: SimulationConfig, sp: SpeciesParams, climate: CityClimate,
                     rate: GrowthRate, warn: ProductivityWarnings)
    requires SimulationError(cfg, climate) == None
    requires IsRunOf(res, cfg, sp, climate, rate, warn)
    ensures forall d :: 0 <= d < |res.biomassConcentration| ==>
              res.biomassConcentration[d] < cfg.harvestThreshold || res.biomassConcentration[d] == cfg.initialBiomass
    ensures forall k :: 0 <= k < |res.harvestDays| ==>
              0 <= res.harvestDays[k] < |res.biomassConcentration|
              && res.biomassConcentration[res.harvestDays[k]] == cfg.initialBiomass
    ensures forall k, l :: 0 <= k < l < |res.harvestDays| ==> res.harvestDays[k] < res.harvestDays[l]
    ensures |res.harvestDays| == res.harvestCount
  {
    var t := Trajectory(cfg, sp, rate, RunMonths(cfg, climate));
    assert res.harvestDays == HarvestDays(t);
    HarvestDaysFacts(t);
    assert |res.biomassConcentration| == |t|;
    forall d | 0 <= d < |res.biomassConcentration|
      ensures res.biomassConcentration[d] < cfg.harvestThreshold || res.biomassConcentration[d] == cfg.initialBiomass
    {
      DayOfRun(res, cfg, sp, climate, rate, warn, d);
    }
    forall k | 0 <= k < |res.harvestDays|
      ensures res.biomassConcentration[res.harvestDays[k]] == cfg.initialBiomass
    {
      DayOfRun(res, cfg, sp, climate, rate, warn, res.harvestDays[k]);
    }
  }

  /** CO2 is booked only on days of positive net growth. */
  lemma Co2OnlyOnGrowthDays(res: SimulationResult, cfg: SimulationConfig, sp: SpeciesParams, climate: CityClimate,
                            rate: GrowthRate, warn: ProductivityWarnings)
    requires SimulationError(cfg, climate) == None
    requires IsRunOf(res, cfg, sp, climate, rate, warn)
    ensures forall d :: 0 <= d < |res.co2CapturedDaily| ==> res.growthRateDaily[d] <= 0.0 ==> res.co2CapturedDaily[d] == 0.0
  {
    forall d | 0 <= d < |res.co2CapturedDaily|
      ensures res.growthRateDaily[d] <= 0.0 ==> res.co2CapturedDaily[d] == 0.0
    {
      DayOfRun(res, cfg, sp, climate, rate, warn, d);
    }
  }

  lemma ProductNonNegative(a: real, b: real, c: real, e: real)
    requires a >= 0.0 && b >= 0.0 && c >= 0.0 && e >= 0.0
    ensures a * b * c * e / 1000.0 >= 0.0
  {
    assert a * b >= 0.0;
    assert a * b * c >= 0.0;
    assert a * b * c * e >= 0.0;
  }

  lemma VolumeNonNegative(cfg: SimulationConfig)
    requires cfg.surfaceArea >= 0.0 && cfg.depth >= 0.0
    ensures VolumeLiters(cfg) >= 0.0
  {
    assert cfg.surfaceArea * cfg.depth >= 0.0;
  }

  /** The signs of one Euler day's quantities. */
  lemma EulerDaySigns(cfg: SimulationConfig, sp: SpeciesParams, rate: GrowthRate, m: MonthlyClimate, x: real)
    ensures var r := EulerDay(cfg, sp, rate, m, x);
            && (cfg.initialBiomass >= 0.0 ==> r.biomass >= 0.0)
            && (x >= 0.0 && cfg.surfaceArea >= 0.0 && cfg.depth >= 0.0 && sp.co2ToBiomassRatio >= 0.0 ==> r.co2Kg >= 0.0)
            && (cfg.harvestThreshold >= cfg.initialBiomass && VolumeLiters(cfg) >= 0.0 ==> r.harvestedG >= 0.0)
  {
    var r := EulerDay(cfg, sp, rate, m, x);
    if x >= 0.0 && cfg.surfaceArea >= 0.0 && cfg.depth >= 0.0 && sp.co2ToBiomassRatio >= 0.0 && r.growthRate > 0.0 {
      VolumeNonNegative(cfg);
      ProductNonNegative(r.growthRate, x, VolumeLiters(cfg), sp.co2ToBiomassRatio);
    }
    if cfg.harvestThreshold >= cfg.initialBiomass && VolumeLiters(cfg) >= 0.0 && r.harvested {
      var y := Stepped(r.growthRate, x);
      assert y - cfg.initialBiomass >= 0.0;
      assert (y - cfg.initialBiomass) * VolumeLiters(cfg) >= 0.0;
    }
  }

  /** The signs of every day's quantities along a trajectory. */
  lemma TrajectorySigns(cfg: SimulationConfig, sp: SpeciesParams, rate: GrowthRate, ms: seq<MonthlyClimate>)
    ensures var t := Trajectory(cfg, sp, rate, ms);
            forall d :: 0 <= d < |t| ==>
              && (cfg.initialBiomass >= 0.0 ==> t[d].biomass >= 0.0)
              && (cfg.initialBiomass >= 0.0 && cfg.surfaceArea >= 0.0 && cfg.depth >= 0.0 && sp.co2ToBiomassRatio >= 0.0
                  ==> t[d].co2Kg >= 0.0)
              && (cfg.harvestThreshold >= cfg.initialBiomass && VolumeLiters(cfg) >= 0.0 ==> t[d].harvestedG >= 0.0)
  {
    var t := Trajectory(cfg, sp, rate, ms);
    forall d | 0 <= d < |t|
      ensures && (cfg.initialBiomass >= 0.0 ==> t[d].biomass >= 0.0)
              && (cfg.initialBiomass >= 0.0 && cfg.surfaceArea >= 0.0 && cfg.depth >= 0.0 && sp.co2ToBiomassRatio >= 0.0
                  ==> t[d].co2Kg >= 0.0)
              && (cfg.harvestThreshold >= cfg.initialBiomass && VolumeLiters(cfg) >= 0.0 ==> t[d].harvestedG >= 0.0)
    {
      var x := if d == 0 then cfg.initialBiomass else t[d - 1].biomass;
      TrajectoryStep(cfg, sp, rate, ms, d);
      if d > 0 {
        TrajectoryStep(cfg, sp, rate, ms, d - 1);
        var px := if d - 1 == 0 then cfg.initialBiomass else t[d - 2].biomass;
        EulerDaySigns(cfg, sp, rate, ms[d - 1], px);
      }
      EulerDaySigns(cfg, sp, rate, ms[d], x);
    }
  }

  /** The CO2 column of a trajectory from a non-negative start, pond size and CO2 yield has no negative entry. */
  lemma Co2ColumnNonNegative(cfg: SimulationConfig, sp: SpeciesParams, rate: GrowthRate, ms: seq<MonthlyClimate>)
    requires cfg.initialBiomass >= 0.0 && cfg.surfaceArea >= 0.0 && cfg.depth >= 0.0 && sp.co2ToBiomassRatio >= 0.0
    ensures var col := Col(Trajectory(cfg, sp, rate, ms), Co2Column);
            forall d :: 0 <= d < |col| ==> col[d] >= 0.0
  {
    var t := Trajectory(cfg, sp, rate, ms);
    var col := Col(t, Co2Column);
    TrajectorySigns(cfg, sp, rate, ms);
    ColIndex(t, Co2Column);
    forall d | 0 <= d < |col|
      ensures col[d] >= 0.0
    {
      assert 0 <= d < |t|;
      assert col[d] == Value(t[d], Co2Column) == t[d].co2Kg;
    }
  }

  /** With a non-negative initial biomass, pond size and CO2 yield, no day books a negative amount of CO2. */
  lemma DailyCo2NonNegative(res: SimulationResult, cfg: SimulationConfig, sp: SpeciesParams, climate: CityClimate,
                            rate: GrowthRate, warn: ProductivityWarnings)
    requires SimulationError(cfg, climate) == None
    requires IsRunOf(res, cfg, sp, climate, rate, warn)
    requires cfg.initialBiomass >= 0.0 && cfg.surfaceArea >= 0.0 && cfg.depth >= 0.0 && sp.co2ToBiomassRatio >= 0.0
    ensures forall d :: 0 <= d < |res.co2CapturedDaily| ==> res.co2CapturedDaily[d] >= 0.0
  {
    var ms := RunMonths(cfg, climate);
    assert res.co2CapturedDaily == Col(Trajectory(cfg, sp, rate, ms), Co2Column);
    Co2ColumnNonNegative(cfg, sp, rate, ms);
  }

  // ----- The cumulative series -----

  /** The last entry of the cumulative series is the whole run's CO2 per unit area. */
  lemma CumulativeEndsAtTotal(cumulative: seq<real>, co2Daily: seq<real>, area: real)
    requires IsCumulative(cumulative, co2Daily, area) && co2Daily != []
    ensures cumulative[|cumulative| - 1] == Sum(co2Daily) * 1000.0 / area
  {
    assert co2Daily[..|co2Daily|] == co2Daily;
  }

  lemma ScaledMonotone(a: real, b: real, area: real)
    requires a <= b && area > 0.0
    ensures a * 1000.0 / area <= b * 1000.0 / area
  {
    assert a * 1000.0 <= b * 1000.0;
  }

  /** Over a positive area, the cumulative series never decreases when no day captures a negative amount. */
  lemma CumulativeNonDecreasing(cumulative: seq<real>, co2Daily: seq<real>, area: real)
    requires IsCumulative(cumulative, co2Daily, area) && area > 0.0
    requires forall d :: 0 <= d < |co2Daily| ==> co2Daily[d] >= 0.0
    ensures forall i, j :: 0 <= i <= j < |cumulative| ==> cumulative[i] <= cumulative[j]
  {
    forall i, j | 0 <= i <= j < |cumulative|
      ensures cumulative[i] <= cumulative[j]
    {
      PrefixSumMonotone(co2Daily, i + 1, j + 1);
      ScaledMonotone(Sum(co2Daily[..i + 1]), Sum(co2Daily[..j + 1]), area);
    }
  }

  /**
   * The run's cumulative series has one entry per day and ends at the total CO2 in g per m2;
   * over a positive area with no negative day it never decreases.
   */
  lemma CumulativeCo2Facts(res: SimulationResult, cfg: SimulationConfig, sp: SpeciesParams, climate: CityClimate,
                           rate: GrowthRate, warn: ProductivityWarnings)
    requires SimulationError(cfg, climate) == None
    requires IsRunOf(res, cfg, sp, climate, rate, warn)
    ensures |res.co2CapturedCumulative| == |res.co2CapturedDaily|
    ensures res.co2CapturedDaily != [] ==>
              res.co2CapturedCumulative[|res.co2CapturedCumulative| - 1] == res.totalCo2CapturedKg * 1000.0 / cfg.surfaceArea
    ensures cfg.surfaceArea > 0.0 && (forall d :: 0 <= d < |res.co2CapturedDaily| ==> res.co2CapturedDaily[d] >= 0.0) ==>
              forall i, j :: 0 <= i <= j < |res.co2CapturedCumulative| ==>
                res.co2CapturedCumulative[i] <= res.co2CapturedCumulative[j]
  {
    if res.co2CapturedDaily != [] {
      CumulativeEndsAtTotal(res.co2CapturedCumulative, res.co2CapturedDaily, cfg.surfaceArea);
    }
    if cfg.surfaceArea > 0.0 && (forall d :: 0 <= d < |res.co2CapturedDaily| ==> res.co2CapturedDaily[d] >= 0.0) {
      CumulativeNonDecreasing(res.co2CapturedCumulative, res.co2CapturedDaily, cfg.surfaceArea);
    }
  }

  // ----- The seasonal breakdown -----

  /** In a run that returns, every day's season is one of dry, hot and monsoon. */
  lemma RunSeasonsKnown(cfg: SimulationConfig, climate: CityClimate)
    requires SimulationError(cfg, climate) == None
    ensures var ls := SeasonLabels(RunMonths(cfg, climate));
            forall d :: 0 <= d < |ls| ==> ls[d].Some?
  {
    FirstUnknownSeasonNone(RunMonths(cfg, climate));
  }

  /** The three seasonal CO2 entries add up to the run's total, and the seasons' days add up to the run's days. */
  lemma SeasonalCo2AddsUpToTotal(res: SimulationResult, cfg: SimulationConfig, sp: SpeciesParams, climate: CityClimate,
                                 rate: GrowthRate, warn: ProductivityWarnings)
    requires SimulationError(cfg, climate) == None
    requires IsRunOf(res, cfg, sp, climate, rate, warn)
    ensures |res.seasonalCo2| == |SeasonOrder| == 3
    ensures res.seasonalCo2[0] + res.seasonalCo2[1] + res.seasonalCo2[2] == res.totalCo2CapturedKg
    ensures var ls := SeasonLabels(RunMonths(cfg, climate));
            |SeasonValues(res.productivityAreal, ls, Dry)| + |SeasonValues(res.productivityAreal, ls, Hot)|
              + |SeasonValues(res.productivityAreal, ls, Monsoon)| == |res.productivityAreal|
  {
    var ls := SeasonLabels(RunMonths(cfg, climate));
    RunSeasonsKnown(cfg, climate);
    SeasonSumsAddUp(res.co2CapturedDaily, ls);
    SeasonSumsAddUp(res.productivityAreal, ls);
  }

  /**
   * With the month, index and area checks passed, the run raises the KeyError of the seasonal
   * breakdown exactly when some day falls in a month whose season is not in SeasonOrder.
   */
  lemma SeasonLookupFails(cfg: SimulationConfig, climate: CityClimate)
    requires 1 <= cfg.startMonth <= 12
    requires InRange(climate, DayMap(cfg.startMonth, cfg.durationDays))
    requires DayMap(cfg.startMonth, cfg.durationDays) != [] ==> cfg.surfaceArea != 0.0
    ensures var ms := Visited(climate, DayMap(cfg.startMonth, cfg.durationDays));
            SimulationError(cfg, climate).Some? <==> exists d :: 0 <= d < |ms| && ms[d].season !in SeasonOrder
    ensures SimulationError(cfg, climate).Some? ==> SimulationError(cfg, climate).value.UnknownSeason?
  {
    var ms := Visited(climate, DayMap(cfg.startMonth, cfg.durationDays));
    FirstUnknownSeasonNone(ms);
    ParseSeasonNames();
  }

  // ----- Harvested mass and warnings -----

  lemma {:induction false} HarvestedTotalNonNegative(t: seq<DayRecord>)
    requires forall d :: 0 <= d < |t| ==> t[d].harvestedG >= 0.0
    ensures HarvestedTotal(t) >= 0.0
    decreases |t|
  {
    if t != [] {
      var init := t[..|t| - 1];
      assert forall d :: 0 <= d < |init| ==> init[d] == t[d];
      HarvestedTotalNonNegative(init);
    }
  }

  /** With the threshold not below the initial biomass and a non-negative volume, no day's harvest removes a negative mass. */
  lemma HarvestedOnDay(cfg: SimulationConfig, sp: SpeciesParams, rate: GrowthRate, ms: seq<MonthlyClimate>, d: nat)
    requires cfg.harvestThreshold >= cfg.initialBiomass && VolumeLiters(cfg) >= 0.0
    requires d < |ms|
    ensures Trajectory(cfg, sp, rate, ms)[d].harvestedG >= 0.0
  {
    TrajectoryStep(cfg, sp, rate, ms, d);
    EulerDaySigns(cfg, sp, rate, ms[d], if d == 0 then cfg.initialBiomass else Trajectory(cfg, sp, rate, ms)[d - 1].biomass);
  }

  lemma HarvestedTotalOfTrajectory(cfg: SimulationConfig, sp: SpeciesParams, rate: GrowthRate, ms: seq<MonthlyClimate>)
    requires cfg.harvestThreshold >= cfg.initialBiomass && VolumeLiters(cfg) >= 0.0
    ensures HarvestedTotal(Trajectory(cfg, sp, rate, ms)) >= 0.0
  {
    var t := Trajectory(cfg, sp, rate, ms);
    forall d | 0 <= d < |t|
      ensures t[d].harvestedG >= 0.0
    {
      HarvestedOnDay(cfg, sp, rate, ms, d);
    }
    HarvestedTotalNonNegative(t);
  }

  /** With the threshold not below the initial biomass and a non-negative volume, the harvested mass is never negative. */
  lemma HarvestedMassNonNegative(res: SimulationResult, cfg: SimulationConfig, sp: SpeciesParams, climate: CityClimate,
                                 rate: GrowthRate, warn: ProductivityWarnings)
    requires SimulationError(cfg, climate) == None
    requires IsRunOf(res, cfg, sp, climate, rate, warn)
    requires cfg.harvestThreshold >= cfg.initialBiomass && VolumeLiters(cfg) >= 0.0
    ensures res.totalBiomassHarvestedKg >= 0.0
  {
    var ms := RunMonths(cfg, climate);
    assert res.totalBiomassHarvestedKg == HarvestedTotal(Trajectory(cfg, sp, rate, ms)) / 1000.0;
    HarvestedTotalOfTrajectory(cfg, sp, rate, ms);
  }

  /** The warnings are sorted, free of repeats, and exactly those some day's productivity raised. */
  lemma WarningsDeduplicated(res: SimulationResult, cfg: SimulationConfig, sp: SpeciesParams, climate: CityClimate,
                             rate: GrowthRate, warn: ProductivityWarnings)
    requires SimulationError(cfg, climate) == None
    requires IsRunOf(res, cfg, sp, climate, rate, warn)
    ensures StrictlySorted(res.warnings)
    ensures forall w :: w in res.warnings <==>
              exists d :: 0 <= d < |res.productivityAreal| && w in warn(res.productivityAreal[d])
  {
    var t := Trajectory(cfg, sp, rate, RunMonths(cfg, climate));
    AllWarningsFacts(t, warn);
    ColIndex(t, ProductivityColumn);
  }

  // ----- The engine's own growth rate -----

  /** A growth rate that is never negative. */
  ghost predicate NeverNegative(rate: GrowthRate)
  {
    forall m: MonthlyClimate, x: real :: rate(m, x) >= 0.0
  }

  /** A growth rate that is zero in a month without daylight. */
  ghost predicate NoGrowthInDarkness(rate: GrowthRate)
  {
    forall m: MonthlyClimate, x: real :: m.photoperiod <= 0.0 ==> rate(m, x) == 0.0
  }

  /** mu_net as run_simulation computes it: daily_growth_rate for the day's month at the current biomass. */
  function EngineRate(cfg: SimulationConfig, sp: SpeciesParams, climate: CityClimate,
                      tr: TemperatureResponse, dagr: DepthAveragedGrowthRate): (rate: GrowthRate)
    ensures NeverNegative(rate)
    ensures NoGrowthInDarkness(rate)
  {
    (m: MonthlyClimate, x: real) =>
      DailyGrowthRate(m.tempDay, m.tempNight, m.par, m.photoperiod, cfg.co2Concentration, x, cfg.depth,
                      sp.growth, sp.light, climate.climateParams, tr, dagr)
  }

  /** A non-negative rate does not shrink a non-negative biomass. */
  lemma SteppedGrows(mu: real, x: real)
    requires mu >= 0.0 && x >= 0.0
    ensures Stepped(mu, x) >= x
  {
    assert mu * x >= 0.0;
  }

  /** One day of a run whose rate is never negative and which starts from a non-negative biomass. */
  lemma DayWithNonNegativeRate(res: SimulationResult, cfg: SimulationConfig, sp: SpeciesParams, climate: CityClimate,
                               rate: GrowthRate, warn: ProductivityWarnings, d: nat)
    requires SimulationError(cfg, climate) == None
    requires IsRunOf(res, cfg, sp, climate, rate, warn)
    requires NeverNegative(rate) && NoGrowthInDarkness(rate)
    requires cfg.initialBiomass >= 0.0
    requires d < |res.biomassConcentration|
    ensures res.growthRateDaily[d] >= 0.0
    ensures d !in res.harvestDays ==> res.biomassConcentration[d] >= StartOfDay(res, cfg, d)
    ensures 0 <= MonthIndexAt(cfg.startMonth, d) < |climate.months|
    ensures climate.months[MonthIndexAt(cfg.startMonth, d)].photoperiod <= 0.0 ==>
              res.growthRateDaily[d] == 0.0 && res.co2CapturedDaily[d] == 0.0
  {
    DayOfRun(res, cfg, sp, climate, rate, warn, d);
    var x := StartOfDay(res, cfg, d);
    var mu := res.growthRateDaily[d];
    var m := climate.months[MonthIndexAt(cfg.startMonth, d)];
    assert mu == rate(m, x);
    BiomassNeverNegative(res, cfg, sp, climate, rate, warn);
    assert x >= 0.0;
    assert mu >= 0.0;
    SteppedGrows(mu, x);
  }

  /**
   * With a growth rate that is never negative and zero without daylight (the engine's own,
   * EngineRate, is both) and a non-negative initial biomass: no day's rate is negative,
   * biomass never falls from one day to the next except by a harvest, and a day in a month
   * without daylight neither grows nor captures CO2.
   */
  lemma BiomassGrowsBetweenHarvests(res: SimulationResult, cfg: SimulationConfig, sp: SpeciesParams, climate: CityClimate,
                                    rate: GrowthRate, warn: ProductivityWarnings)
    requires SimulationError(cfg, climate) == None
    requires IsRunOf(res, cfg, sp, climate, rate, warn)
    requires NeverNegative(rate) && NoGrowthInDarkness(rate)
    requires cfg.initialBiomass >= 0.0
    ensures forall d :: 0 <= d < |res.growthRateDaily| ==> res.growthRateDaily[d] >= 0.0
    ensures forall d :: 0 <= d < |res.biomassConcentration| && d !in res.harvestDays ==>
              res.biomassConcentration[d] >= StartOfDay(res, cfg, d)
    ensures forall d :: 0 <= d < |res.growthRateDaily| ==>
              && 0 <= MonthIndexAt(cfg.startMonth, d) < |climate.months|
              && (climate.months[MonthIndexAt(cfg.startMonth, d)].photoperiod <= 0.0 ==>
                    res.growthRateDaily[d] == 0.0 && res.co2CapturedDaily[d] == 0.0)
  {
    RunLengths(res, cfg, sp, climate, rate, warn);
    forall d | 0 <= d < |res.biomassConcentration|
      ensures res.growthRateDaily[d] >= 0.0
      ensures d !in res.harvestDays ==> res.biomassConcentration[d] >= StartOfDay(res, cfg, d)
      ensures 0 <= MonthIndexAt(cfg.startMonth, d) < |climate.months|
      ensures climate.months[MonthIndexAt(cfg.startMonth, d)].photoperiod <= 0.0 ==>
                res.growthRateDaily[d] == 0.0 && res.co2CapturedDaily[d] == 0.0
    {
      DayWithNonNegativeRate(res, cfg, sp, climate, rate, warn, d);
    }
  }
}
