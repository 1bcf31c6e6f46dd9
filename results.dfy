/** The frozen record a simulation run returns. */
module Results {
  import opened Series
  import opened Parameters

  /** The seasons a result breaks CO2 and productivity down by, in this order. */
  const SeasonOrder: seq<string> := ["dry", "hot", "monsoon"]

  datatype SimulationResult = SimulationResult(
    timeDays: seq<real>,                 // day of each time point
    biomassConcentration: seq<real>,     // g/L at the end of each day
    productivityAreal: seq<real>,        // g/m2/day
    co2CapturedCumulative: seq<real>,    // g/m2 captured up to each day
    warnings: seq<string>,
    parametersUsed: SpeciesParams,
    co2CapturedDaily: seq<real>,         // kg per day
    growthRateDaily: seq<real>,          // 1/d per day
    harvestDays: seq<int>,               // 0-based day indices
    totalCo2CapturedKg: real,
    totalCo2CapturedTco2e: real,
    totalBiomassHarvestedKg: real,
    harvestCount: int,
    avgDailyProductivity: real,
    durationDays: int,
    startMonth: int,
    seasonalCo2: seq<real>,              // kg per season, ordered as SeasonOrder
    seasonalProductivity: seq<real>)     // g/m2/day per season, ordered as SeasonOrder
  {
    /** peak_productivity: the largest areal productivity of the run, 0.0 for an empty run. */
    function PeakProductivity(): (p: real)
      ensures productivityAreal == [] ==> p == 0.0
      ensures productivityAreal != [] ==> p in productivityAreal
      ensures forall d :: 0 <= d < |productivityAreal| ==> productivityAreal[d] <= p
    {
      if productivityAreal == [] then 0.0 else MaxOf(productivityAreal)
    }

    /**
     * The relations the field documentation fixes: one value per simulation day in every
     * daily series, harvest days as increasing 0-based day indices numbering harvestCount,
     * tonnes as kilograms / 1000, a start month in 1..12, and three seasonal entries.
     */
    predicate WellFormed()
    {
      var n := RangeLength(durationDays);
      && |timeDays| == n && |biomassConcentration| == n && |productivityAreal| == n
      && |co2CapturedCumulative| == n && |co2CapturedDaily| == n && |growthRateDaily| == n
      && (forall d :: 0 <= d < n ==> timeDays[d] == d as real)
      && |harvestDays| == harvestCount
      && (forall k :: 0 <= k < |harvestDays| ==> 0 <= harvestDays[k] < n)
      && (forall k, l :: 0 <= k < l < |harvestDays| ==> harvestDays[k] < harvestDays[l])
      && totalCo2CapturedTco2e == totalCo2CapturedKg / 1000.0
      && 1 <= startMonth <= 12
      && |seasonalCo2| == |SeasonOrder| && |seasonalProductivity| == |SeasonOrder|
    }
  }
}
