/**
 * The daily growth-rate combiner: depth-averaged daytime growth scaled by the CTMI modifier
 * of the daytime temperature, minus maintenance respiration scaled by the modifier of the
 * night temperature, each weighted by its share of the 24-hour day, and clamped at zero.
 * The CTMI curve and the depth-averaged growth rate are parameters of the model.
 */
module GrowthModifier {
  import opened Series
  import opened Parameters

  /** temperature_response(T, T_min, T_opt, T_max). */
  type TemperatureResponse = (real, real, real, real) -> real

  /** depth_averaged_growth_rate(par, co2, biomass_conc, depth, growth_params, light_params). */
  type DepthAveragedGrowthRate = (real, real, real, real, GrowthParams, LightParams) -> real

  /** The share of the day that is daylight: min(photoperiod, 24) / 24. */
  function DayFraction(photoperiod: real): (f: real)
    ensures photoperiod > 0.0 ==> 0.0 < f <= 1.0
    ensures photoperiod >= 24.0 ==> f == 1.0
    ensures 0.0 <= photoperiod <= 24.0 ==> f * 24.0 == photoperiod
  {
    Min(photoperiod, 24.0) / 24.0
  }

  /** daily_growth_rate: net daily specific growth rate [1/d]. */
  function DailyGrowthRate(
    daytimeTemp: real, nighttimeTemp: real, par: real, photoperiod: real, co2: real,
    biomassConc: real, depth: real, growthParams: GrowthParams, lightParams: LightParams,
    climateParams: ClimateParams,
    temperatureResponse: TemperatureResponse, depthAveragedGrowthRate: DepthAveragedGrowthRate): (mu: real)
    ensures mu >= 0.0
    ensures photoperiod <= 0.0 ==> mu == 0.0
  {
    if photoperiod <= 0.0 then 0.0
    else
      var fTempDay := temperatureResponse(daytimeTemp, climateParams.tMin, climateParams.tOpt, climateParams.tMax);
      var muBase := depthAveragedGrowthRate(par, co2, biomassConc, depth, growthParams, lightParams);
      var muDay := muBase * fTempDay;
      var fTempNight := temperatureResponse(nighttimeTemp, climateParams.tMin, climateParams.tOpt, climateParams.tMax);
      var rNight := growthParams.rMaintenance * fTempNight;
      var dayFraction := DayFraction(photoperiod);
      var nightFraction := 1.0 - dayFraction;
      var muNet := muDay * dayFraction - rNight * nightFraction;
      Max(muNet, 0.0)
  }

  /**
   * For a photoperiod of at most a day, the rate is the documented formula
   * max(mu_base * f_day * (p / 24) - r_maintenance * f_night * ((24 - p) / 24), 0).
   */
  lemma DocumentedFormula(
    daytimeTemp: real, nighttimeTemp: real, par: real, photoperiod: real, co2: real,
    biomassConc: real, depth: real, gp: GrowthParams, lp: LightParams, cp: ClimateParams,
    tr: TemperatureResponse, dagr: DepthAveragedGrowthRate)
    requires 0.0 < photoperiod <= 24.0
    ensures var muBase := dagr(par, co2, biomassConc, depth, gp, lp);
            var fDay := tr(daytimeTemp, cp.tMin, cp.tOpt, cp.tMax);
            var fNight := tr(nighttimeTemp, cp.tMin, cp.tOpt, cp.tMax);
            DailyGrowthRate(daytimeTemp, nighttimeTemp, par, photoperiod, co2, biomassConc, depth, gp, lp, cp, tr, dagr)
              == Max(muBase * fDay * (photoperiod / 24.0)
                     - gp.rMaintenance * fNight * ((24.0 - photoperiod) / 24.0), 0.0)
  {
    var df := DayFraction(photoperiod);
    assert df == photoperiod / 24.0;
    assert 1.0 - df == (24.0 - photoperiod) / 24.0;
  }

  /** A photoperiod of a full day or more leaves no night, so respiration drops out. */
  lemma FullDaylightHasNoRespiration(
    daytimeTemp: real, nighttimeTemp: real, par: real, photoperiod: real, co2: real,
    biomassConc: real, depth: real, gp: GrowthParams, lp: LightParams, cp: ClimateParams,
    tr: TemperatureResponse, dagr: DepthAveragedGrowthRate)
    requires photoperiod >= 24.0
    ensures DailyGrowthRate(daytimeTemp, nighttimeTemp, par, photoperiod, co2, biomassConc, depth, gp, lp, cp, tr, dagr)
         == Max(dagr(par, co2, biomassConc, depth, gp, lp) * tr(daytimeTemp, cp.tMin, cp.tOpt, cp.tMax), 0.0)
  {
  }

  /**
   * With non-negative respiration and night modifier, the net rate never exceeds the
   * photoperiod-weighted daytime growth (clamped at zero).
   */
  lemma NetRateAtMostDaytimeGrowth(
    daytimeTemp: real, nighttimeTemp: real, par: real, photoperiod: real, co2: real,
    biomassConc: real, depth: real, gp: GrowthParams, lp: LightParams, cp: ClimateParams,
    tr: TemperatureResponse, dagr: DepthAveragedGrowthRate)
    requires gp.rMaintenance >= 0.0
    requires tr(nighttimeTemp, cp.tMin, cp.tOpt, cp.tMax) >= 0.0
    ensures DailyGrowthRate(daytimeTemp, nighttimeTemp, par, photoperiod, co2, biomassConc, depth, gp, lp, cp, tr, dagr)
         <= Max(dagr(par, co2, biomassConc, depth, gp, lp) * tr(daytimeTemp, cp.tMin, cp.tOpt, cp.tMax)
                * DayFraction(photoperiod), 0.0)
  {
    if photoperiod > 0.0 {
      var rNight := gp.rMaintenance * tr(nighttimeTemp, cp.tMin, cp.tOpt, cp.tMax);
      var nightFraction := 1.0 - DayFraction(photoperiod);
      assert rNight >= 0.0 && nightFraction >= 0.0;
      assert rNight * nightFraction >= 0.0;
    }
  }

  /** A daytime temperature the CTMI curve rates 0 gives no growth, whatever the light. */
  lemma NoGrowthWhenDayModifierIsZero(
    daytimeTemp: real, nighttimeTemp: real, par: real, photoperiod: real, co2: real,
    biomassConc: real, depth: real, gp: GrowthParams, lp: LightParams, cp: ClimateParams,
    tr: TemperatureResponse, dagr: DepthAveragedGrowthRate)
    requires tr(daytimeTemp, cp.tMin, cp.tOpt, cp.tMax) == 0.0
    requires gp.rMaintenance >= 0.0
    requires tr(nighttimeTemp, cp.tMin, cp.tOpt, cp.tMax) >= 0.0
    ensures DailyGrowthRate(daytimeTemp, nighttimeTemp, par, photoperiod, co2, biomassConc, depth, gp, lp, cp, tr, dagr) == 0.0
  {
    NetRateAtMostDaytimeGrowth(daytimeTemp, nighttimeTemp, par, photoperiod, co2, biomassConc, depth, gp, lp, cp, tr, dagr);
  }

  /**
   * With the CTMI modifier in [0, 1] and a non-negative base rate, the net rate never
   * exceeds the depth-averaged base rate.
   */
  lemma NetRateAtMostBaseRate(
    daytimeTemp: real, nighttimeTemp: real, par: real, photoperiod: real, co2: real,
    biomassConc: real, depth: real, gp: GrowthParams, lp: LightParams, cp: ClimateParams,
    tr: TemperatureResponse, dagr: DepthAveragedGrowthRate)
    requires 0.0 <= tr(daytimeTemp, cp.tMin, cp.tOpt, cp.tMax) <= 1.0
    requires tr(nighttimeTemp, cp.tMin, cp.tOpt, cp.tMax) >= 0.0
    requires gp.rMaintenance >= 0.0
    requires dagr(par, co2, biomassConc, depth, gp, lp) >= 0.0
    ensures DailyGrowthRate(daytimeTemp, nighttimeTemp, par, photoperiod, co2, biomassConc, depth, gp, lp, cp, tr, dagr)
         <= dagr(par, co2, biomassConc, depth, gp, lp)
  {
    NetRateAtMostDaytimeGrowth(daytimeTemp, nighttimeTemp, par, photoperiod, co2, biomassConc, depth, gp, lp, cp, tr, dagr);
    if photoperiod > 0.0 {
      ScaledTwiceAtMost(dagr(par, co2, biomassConc, depth, gp, lp), tr(daytimeTemp, cp.tMin, cp.tOpt, cp.tMax), DayFraction(photoperiod));
    }
  }

  lemma ScaledTwiceAtMost(a: real, f: real, g: real)
    requires a >= 0.0 && 0.0 <= f <= 1.0 && 0.0 <= g <= 1.0
    ensures Max(a * f * g, 0.0) <= a
  {
    ScaleDown(a, f);
    ScaleDown(a * f, g);
    var m := Max(a * f * g, 0.0);
    assert m == a * f * g || m == 0.0;
  }

  /** Scaling a non-negative value by a factor in [0, 1] keeps it in [0, the value]. */
  lemma ScaleDown(a: real, f: real)
    requires a >= 0.0 && 0.0 <= f <= 1.0
    ensures 0.0 <= a * f <= a
  {
    assert a - a * f == a * (1.0 - f);
  }

  /**
   * Temperature acts only as a factor on the base rate: two (base rate, CTMI) pairs whose
   * daytime products agree and whose night modifiers agree give the same net rate.
   */
  lemma TemperatureOnlyScalesBaseRate(
    daytimeTemp: real, nighttimeTemp: real, par: real, photoperiod: real, co2: real,
    biomassConc: real, depth: real, gp: GrowthParams, lp: LightParams, cp: ClimateParams,
    tr1: TemperatureResponse, dagr1: DepthAveragedGrowthRate,
    tr2: TemperatureResponse, dagr2: DepthAveragedGrowthRate)
    requires dagr1(par, co2, biomassConc, depth, gp, lp) * tr1(daytimeTemp, cp.tMin, cp.tOpt, cp.tMax)
          == dagr2(par, co2, biomassConc, depth, gp, lp) * tr2(daytimeTemp, cp.tMin, cp.tOpt, cp.tMax)
    requires tr1(nighttimeTemp, cp.tMin, cp.tOpt, cp.tMax) == tr2(nighttimeTemp, cp.tMin, cp.tOpt, cp.tMax)
    ensures DailyGrowthRate(daytimeTemp, nighttimeTemp, par, photoperiod, co2, biomassConc, depth, gp, lp, cp, tr1, dagr1)
         == DailyGrowthRate(daytimeTemp, nighttimeTemp, par, photoperiod, co2, biomassConc, depth, gp, lp, cp, tr2, dagr2)
  {
  }
}
