/**
 * The simulator's immutable parameter records. GrowthParams, LightParams, ReactorParams and
 * SpeciesParams have the fields of src/models/parameters.py; ClimateParams, MonthlyClimate,
 * CityClimate and SimulationConfig are rebuilt from the fields their users read.
 */
module Parameters {

  /** Monod growth kinetics of one species. */
  datatype GrowthParams = GrowthParams(
    muMax: real,          // maximum specific growth rate [1/d]
    ksCo2: real,          // CO2 half-saturation constant [mg/L]
    iOpt: real,           // optimal irradiance of the Steele curve [umol/m2/s]
    rMaintenance: real,   // maintenance respiration [1/d]
    discountFactor: real) // lab-to-field derating in (0, 1]

  /** Beer-Lambert attenuation. */
  datatype LightParams = LightParams(
    sigmaX: real,               // biomass-specific absorption [m2/g]
    backgroundTurbidity: real)  // non-biomass extinction [1/m]

  /** Pond geometry. */
  datatype ReactorParams = ReactorParams(depth: real, surfaceArea: real)

  /** A species: kinetics, light and carbon stoichiometry. */
  datatype SpeciesParams = SpeciesParams(
    name: string,
    growth: GrowthParams,
    light: LightParams,
    carbonContent: real,        // g C per g dry weight
    co2ToBiomassRatio: real)    // g CO2 per g dry weight produced

  /** Cardinal temperatures of the CTMI curve. */
  datatype ClimateParams = ClimateParams(tMin: real, tOpt: real, tMax: real)

  /** One month of a city's climate profile. */
  datatype MonthlyClimate = MonthlyClimate(
    season: string,
    tempDay: real,
    tempNight: real,
    par: real,
    photoperiod: real,
    rainfall: real,
    cloudCoverFraction: real)

  /** A city's climate profile: metadata, cardinal temperatures and the months January..December. */
  datatype CityClimate = CityClimate(
    city: string,
    country: string,
    latitude: real,
    longitude: real,
    climateParams: ClimateParams,
    months: seq<MonthlyClimate>)

  /** The user-configurable run parameters. */
  datatype SimulationConfig = SimulationConfig(
    durationDays: int,
    startMonth: int,          // 1 = January
    initialBiomass: real,     // g/L
    harvestThreshold: real,   // g/L
    co2Concentration: real,   // mg/L
    depth: real,              // m
    surfaceArea: real)        // m2
}
