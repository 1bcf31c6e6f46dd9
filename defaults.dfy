/**
 * The UI's default inputs, its hard input validation and its climate override: the checks
 * that block a run, and the uniform twelve-month climate built from the user's overrides.
 */
module UiDefaults {
  import opened Wrappers
  import opened Series
  import opened Parameters
  import opened Calendar
  import opened Engine

  /** Default pond surface area [m2], depth [m], initial biomass [g/L] and dissolved CO2 [mg/L]. */
  const DefaultSurfaceArea: real := 100.0
  const DefaultDepth: real := 0.3
  const DefaultInitialBiomass: real := 0.5
  const DefaultHarvestThreshold: real := 2.0
  const DefaultCo2Concentration: real := 5.0
  /** Default run length [days] and start month (January = 1). */
  const DefaultDurationDays: int := 365
  const DefaultStartMonth: int := 1

  /** The sidebar's duration presets: a label and its day count, None for a custom count. */
  const DurationPresets: seq<(string, Option<int>)> :=
    [("Custom (days)", None), ("1 month", Some(30)), ("3 months", Some(90)), ("6 months", Some(180)), ("1 year", Some(365))]

  /** The start-month dropdown's names, January first. */
  const MonthNames: seq<string> :=
    ["January", "February", "March", "April", "May", "June",
     "July", "August", "September", "October", "November", "December"]

  // ----- Validation -----

  /** The four hard checks, in the order they are made. */
  datatype Check = SurfaceAreaCheck | DepthCheck | InitialBiomassCheck | Co2Check

  const CheckOrder: seq<Check> := [SurfaceAreaCheck, DepthCheck, InitialBiomassCheck, Co2Check]

  function Message(c: Check): string
  {
    match c
    case SurfaceAreaCheck => "Surface area must be positive"
    case DepthCheck => "Depth must be positive"
    case InitialBiomassCheck => "Initial biomass must be positive"
    case Co2Check => "CO2 concentration cannot be negative"
  }

  /** Whether check c rejects the inputs: area, depth and biomass must be positive, CO2 not negative. */
  predicate Rejects(c: Check, surfaceArea: real, depth: real, initialBiomass: real, co2Concentration: real)
  {
    match c
    case SurfaceAreaCheck => surfaceArea <= 0.0
    case DepthCheck => depth <= 0.0
    case InitialBiomassCheck => initialBiomass <= 0.0
    case Co2Check => co2Concentration < 0.0
  }

  /** The checks among cs that reject the inputs, in the order of cs. */
  function Failed(cs: seq<Check>, surfaceArea: real, depth: real, initialBiomass: real, co2Concentration: real): seq<Check>
    decreases |cs|
  {
    if cs == [] then []
    else
      var last := cs[|cs| - 1];
      Failed(cs[..|cs| - 1], surfaceArea, depth, initialBiomass, co2Concentration)
        + (if Rejects(last, surfaceArea, depth, initialBiomass, co2Concentration) then [last] else [])
  }

  /** The messages of checks cs. */
  function Messages(cs: seq<Check>): (ms: seq<string>)
    ensures |ms| == |cs|
    decreases |cs|
  {
    if cs == [] then [] else Messages(cs[..|cs| - 1]) + [Message(cs[|cs| - 1])]
  }

  /** The message of check c when it rejects the inputs, nothing otherwise. */
  function MessageIfRejected(c: Check, surfaceArea: real, depth: real, initialBiomass: real, co2Concentration: real)
    : seq<string>
  {
    if Rejects(c, surfaceArea, depth, initialBiomass, co2Concentration) then [Message(c)] else []
  }

  /** What collect_validation_errors returns: the message of every failed check, in check order. */
  function ErrorsFor(surfaceArea: real, depth: real, initialBiomass: real, co2Concentration: real): seq<string>
  {
    MessageIfRejected(SurfaceAreaCheck, surfaceArea, depth, initialBiomass, co2Concentration)
      + MessageIfRejected(DepthCheck, surfaceArea, depth, initialBiomass, co2Concentration)
      + MessageIfRejected(InitialBiomassCheck, surfaceArea, depth, initialBiomass, co2Concentration)
      + MessageIfRejected(Co2Check, surfaceArea, depth, initialBiomass, co2Concentration)
  }

  /** collect_validation_errors: one message appended per failed check, checks in their fixed order. */
  method CollectValidationErrors(surfaceArea: real, depth: real, initialBiomass: real, co2Concentration: real)
    returns (errors: seq<string>)
    ensures errors == ErrorsFor(surfaceArea, depth, initialBiomass, co2Concentration)
  {
    ghost var expected := MessageIfRejected(SurfaceAreaCheck, surfaceArea, depth, initialBiomass, co2Concentration);
    errors := [];
    if surfaceArea <= 0.0 {
      errors := errors + [Message(SurfaceAreaCheck)];
    }
    assert errors == expected;
    expected := expected + MessageIfRejected(DepthCheck, surfaceArea, depth, initialBiomass, co2Concentration);
    if depth <= 0.0 {
      errors := errors + [Message(DepthCheck)];
    } else {
      assert errors + [] == errors;
    }
    assert errors == expected;
    expected := expected + MessageIfRejected(InitialBiomassCheck, surfaceArea, depth, initialBiomass, co2Concentration);
    if initialBiomass <= 0.0 {
      errors := errors + [Message(InitialBiomassCheck)];
    } else {
      assert errors + [] == errors;
    }
    assert errors == expected;
    expected := expected + MessageIfRejected(Co2Check, surfaceArea, depth, initialBiomass, co2Concentration);
    if co2Concentration < 0.0 {
      errors := errors + [Message(Co2Check)];
    } else {
      assert errors + [] == errors;
    }
    assert errors == expected;
  }

  lemma MessagesSnoc(cs: seq<Check>, c: Check)
    ensures Messages(cs + [c]) == Messages(cs) + [Message(c)]
  {
    assert (cs + [c])[..|cs|] == cs;
  }

  /** The messages of the failed checks grow by one check's message (if it rejects) per check made. */
  lemma MessagesStep(cs: seq<Check>, c: Check, surfaceArea: real, depth: real, initialBiomass: real, co2Concentration: real)
    ensures Messages(Failed(cs + [c], surfaceArea, depth, initialBiomass, co2Concentration))
         == Messages(Failed(cs, surfaceArea, depth, initialBiomass, co2Concentration))
            + MessageIfRejected(c, surfaceArea, depth, initialBiomass, co2Concentration)
  {
    var before := Failed(cs, surfaceArea, depth, initialBiomass, co2Concentration);
    FailedStep(cs, c, surfaceArea, depth, initialBiomass, co2Concentration);
    if Rejects(c, surfaceArea, depth, initialBiomass, co2Concentration) {
      MessagesSnoc(before, c);
    } else {
      assert Messages(before) + [] == Messages(before);
    }
  }

  /** The messages are those of the checks of CheckOrder that reject the inputs, in check order. */
  lemma ErrorsAreFailedChecks(surfaceArea: real, depth: real, initialBiomass: real, co2Concentration: real)
    ensures ErrorsFor(surfaceArea, depth, initialBiomass, co2Concentration)
         == Messages(Failed(CheckOrder, surfaceArea, depth, initialBiomass, co2Concentration))
  {
    var a, d, b, c := surfaceArea, depth, initialBiomass, co2Concentration;
    var c0: seq<Check> := [];
    var c1 := c0 + [SurfaceAreaCheck];
    var c2 := c1 + [DepthCheck];
    var c3 := c2 + [InitialBiomassCheck];
    assert CheckOrder == c3 + [Co2Check];
    var first := MessageIfRejected(SurfaceAreaCheck, a, d, b, c);
    MessagesStep(c0, SurfaceAreaCheck, a, d, b, c);
    assert Messages(Failed(c1, a, d, b, c)) == first by {
      assert Messages(Failed(c0, a, d, b, c)) == [];
      assert [] + first == first;
    }
    MessagesStep(c1, DepthCheck, a, d, b, c);
    MessagesStep(c2, InitialBiomassCheck, a, d, b, c);
    MessagesStep(c3, Co2Check, a, d, b, c);
  }

  /** Making one more check appends its message exactly when it rejects the inputs. */
  lemma FailedStep(cs: seq<Check>, c: Check, surfaceArea: real, depth: real, initialBiomass: real, co2Concentration: real)
    ensures var before := Failed(cs, surfaceArea, depth, initialBiomass, co2Concentration);
            var after := Failed(cs + [c], surfaceArea, depth, initialBiomass, co2Concentration);
            && (Rejects(c, surfaceArea, depth, initialBiomass, co2Concentration) ==>
                  after == before + [c] && Messages(after) == Messages(before) + [Message(c)])
            && (!Rejects(c, surfaceArea, depth, initialBiomass, co2Concentration) ==> after == before)
  {
    assert (cs + [c])[..|cs|] == cs;
    var before := Failed(cs, surfaceArea, depth, initialBiomass, co2Concentration);
    assert (before + [c])[..|before|] == before;
  }

  // ----- Properties of the validator -----

  /** Position of a check in CheckOrder. */
  function Rank(c: Check): (k: nat)
    ensures k < |CheckOrder| && CheckOrder[k] == c
  {
    match c
    case SurfaceAreaCheck => 0
    case DepthCheck => 1
    case InitialBiomassCheck => 2
    case Co2Check => 3
  }

  /** The failed checks among cs are those of cs that reject the inputs, in the order of cs. */
  lemma {:induction false} FailedFacts(cs: seq<Check>, surfaceArea: real, depth: real, initialBiomass: real, co2Concentration: real)
    requires forall i, j :: 0 <= i < j < |cs| ==> Rank(cs[i]) < Rank(cs[j])
    ensures var f := Failed(cs, surfaceArea, depth, initialBiomass, co2Concentration);
            && |f| <= |cs|
            && (forall c :: c in f <==> c in cs && Rejects(c, surfaceArea, depth, initialBiomass, co2Concentration))
            && (forall i, j :: 0 <= i < j < |f| ==> Rank(f[i]) < Rank(f[j]))
    decreases |cs|
  {
    if cs != [] {
      var init := cs[..|cs| - 1];
      var last := cs[|cs| - 1];
      assert cs == init + [last];
      FailedFacts(init, surfaceArea, depth, initialBiomass, co2Concentration);
      FailedStep(init, last, surfaceArea, depth, initialBiomass, co2Concentration);
      var f0 := Failed(init, surfaceArea, depth, initialBiomass, co2Concentration);
      forall i | 0 <= i < |f0|
        ensures Rank(f0[i]) < Rank(last)
      {
        assert f0[i] in f0;
        var k :| 0 <= k < |init| && init[k] == f0[i];
        assert cs[k] == init[k];
      }
    }
  }

  /** The failed checks of CheckOrder: those that reject, in check order. */
  lemma FailedOfCheckOrder(surfaceArea: real, depth: real, initialBiomass: real, co2Concentration: real)
    ensures var f := Failed(CheckOrder, surfaceArea, depth, initialBiomass, co2Concentration);
            && (forall c :: c in f <==> Rejects(c, surfaceArea, depth, initialBiomass, co2Concentration))
            && (forall i, j :: 0 <= i < j < |f| ==> Rank(f[i]) < Rank(f[j]))
  {
    FailedFacts(CheckOrder, surfaceArea, depth, initialBiomass, co2Concentration);
    forall c
      ensures c in CheckOrder
    {
      assert CheckOrder[Rank(c)] == c;
    }
  }

  /** A message names its check: the four messages are different. */
  lemma MessagesDistinct(c1: Check, c2: Check)
    ensures Message(c1) == Message(c2) <==> c1 == c2
  {
    if c1 != c2 {
      assert Message(c1)[0] != Message(c2)[0];
    }
  }

  /** The message of check c is among the messages of cs exactly when c is among cs. */
  lemma {:induction false} MessagesMembership(cs: seq<Check>, c: Check)
    ensures Message(c) in Messages(cs) <==> c in cs
    decreases |cs|
  {
    if cs != [] {
      var init := cs[..|cs| - 1];
      MessagesMembership(init, c);
      MessagesDistinct(c, cs[|cs| - 1]);
      assert cs == init + [cs[|cs| - 1]];
    }
  }

  /** The inputs pass validation (the Run button is enabled) exactly when no check rejects them. */
  lemma ValidationPassesIff(surfaceArea: real, depth: real, initialBiomass: real, co2Concentration: real)
    ensures ErrorsFor(surfaceArea, depth, initialBiomass, co2Concentration) == []
        <==> surfaceArea > 0.0 && depth > 0.0 && initialBiomass > 0.0 && co2Concentration >= 0.0
  {
    ValidationMessageCount(surfaceArea, depth, initialBiomass, co2Concentration);
  }

  /** The number of rejecting checks, counted one by one. */
  function FailureCount(surfaceArea: real, depth: real, initialBiomass: real, co2Concentration: real): nat
  {
    (if surfaceArea <= 0.0 then 1 else 0) + (if depth <= 0.0 then 1 else 0)
      + (if initialBiomass <= 0.0 then 1 else 0) + (if co2Concentration < 0.0 then 1 else 0)
  }

  /** One message per failed check, so at most four. */
  lemma ValidationMessageCount(surfaceArea: real, depth: real, initialBiomass: real, co2Concentration: real)
    ensures |ErrorsFor(surfaceArea, depth, initialBiomass, co2Concentration)|
         == FailureCount(surfaceArea, depth, initialBiomass, co2Concentration) <= 4
  {
  }

  /** A check's message is reported exactly when that check rejects the inputs. */
  lemma ValidationMessagePresent(surfaceArea: real, depth: real, initialBiomass: real, co2Concentration: real, c: Check)
    ensures Message(c) in ErrorsFor(surfaceArea, depth, initialBiomass, co2Concentration)
        <==> Rejects(c, surfaceArea, depth, initialBiomass, co2Concentration)
  {
    var f := Failed(CheckOrder, surfaceArea, depth, initialBiomass, co2Concentration);
    ErrorsAreFailedChecks(surfaceArea, depth, initialBiomass, co2Concentration);
    FailedOfCheckOrder(surfaceArea, depth, initialBiomass, co2Concentration);
    MessagesMembership(f, c);
  }

  /** The messages come in the order of the checks: area, depth, biomass, CO2. */
  lemma ValidationMessageOrder(surfaceArea: real, depth: real, initialBiomass: real, co2Concentration: real,
                               i: nat, j: nat, ci: Check, cj: Check)
    requires var errors := ErrorsFor(surfaceArea, depth, initialBiomass, co2Concentration);
             i < j < |errors| && errors[i] == Message(ci) && errors[j] == Message(cj)
    ensures Rank(ci) < Rank(cj)
  {
    var f := Failed(CheckOrder, surfaceArea, depth, initialBiomass, co2Concentration);
    ErrorsAreFailedChecks(surfaceArea, depth, initialBiomass, co2Concentration);
    FailedOfCheckOrder(surfaceArea, depth, initialBiomass, co2Concentration);
    MessageAt(f, i);
    MessageAt(f, j);
    MessagesDistinct(ci, f[i]);
    MessagesDistinct(cj, f[j]);
  }

  lemma {:induction false} MessageAt(cs: seq<Check>, i: nat)
    requires i < |cs|
    ensures Messages(cs)[i] == Message(cs[i])
    decreases |cs|
  {
    if i < |cs| - 1 {
      var init := cs[..|cs| - 1];
      MessageAt(init, i);
    }
  }

  /** At the boundaries: zero CO2 passes, while zero area, zero depth or zero biomass is rejected alone. */
  lemma ValidationBoundaries()
    ensures ErrorsFor(1.0, 1.0, 1.0, 0.0) == []
    ensures ErrorsFor(0.0, 1.0, 1.0, 0.0) == [Message(SurfaceAreaCheck)]
    ensures ErrorsFor(1.0, 0.0, 1.0, 0.0) == [Message(DepthCheck)]
    ensures ErrorsFor(1.0, 1.0, 0.0, 0.0) == [Message(InitialBiomassCheck)]
  {
    ValidationPassesIff(1.0, 1.0, 1.0, 0.0);
    ForcedSingle(0.0, 1.0, 1.0, 0.0, SurfaceAreaCheck);
    ForcedSingle(1.0, 0.0, 1.0, 0.0, DepthCheck);
    ForcedSingle(1.0, 1.0, 0.0, 0.0, InitialBiomassCheck);
  }

  /** When exactly one check fails, its message is the only one. */
  lemma ForcedSingle(surfaceArea: real, depth: real, initialBiomass: real, co2Concentration: real, c: Check)
    requires FailureCount(surfaceArea, depth, initialBiomass, co2Concentration) == 1
    requires Rejects(c, surfaceArea, depth, initialBiomass, co2Concentration)
    ensures ErrorsFor(surfaceArea, depth, initialBiomass, co2Concentration) == [Message(c)]
  {
    ValidationMessagePresent(surfaceArea, depth, initialBiomass, co2Concentration, c);
  }

  /** The default inputs pass validation, and the default start month and duration make a run of a year from January. */
  lemma DefaultsAreValid()
    ensures ErrorsFor(DefaultSurfaceArea, DefaultDepth, DefaultInitialBiomass, DefaultCo2Concentration) == []
    ensures 1 <= DefaultStartMonth <= 12
    ensures |DayMap(DefaultStartMonth, DefaultDurationDays)| == 365
    ensures DefaultHarvestThreshold > DefaultInitialBiomass
  {
    ValidationPassesIff(DefaultSurfaceArea, DefaultDepth, DefaultInitialBiomass, DefaultCo2Concentration);
  }

  /** Every preset names a positive day count or leaves the count to the user. */
  lemma PresetsArePositive()
    ensures forall k :: 0 <= k < |DurationPresets| ==> DurationPresets[k].1.Some? ==> DurationPresets[k].1.value > 0
    ensures |DurationPresets| == 5 && DurationPresets[0].1 == None
  {
  }

  /**
   * MONTH_NAMES lists one name per calendar month, index m - 1 naming month m, so every month
   * index of the day map names a month and the first simulated day is in the start month's name.
   */
  lemma MonthNamesCoverTheCalendar(startMonth: int, durationDays: int)
    requires 1 <= startMonth <= 12
    ensures |MonthNames| == 12
    ensures var m := DayMap(startMonth, durationDays);
            && (forall d :: 0 <= d < |m| ==> 0 <= m[d] < |MonthNames|)
            && (|m| > 0 ==> MonthNames[m[0]] == MonthNames[startMonth - 1])
  {
  }

  // ----- Climate override -----

  /** The season every override month carries: not a key of the engine's seasonal dictionaries. */
  const CustomSeason: string := "custom"

  /**
   * build_overridden_climate: twelve identical months with the given temperatures, PAR and
   * photoperiod, season "custom", no rain and no cloud; city, country, coordinates and climate
   * parameters copied from the base profile.
   */
  function BuildOverriddenClimate(base: CityClimate, tempDay: real, tempNight: real, par: real, photoperiod: real)
    : (c: CityClimate)
    ensures |c.months| == 12
    ensures forall i :: 0 <= i < 12 ==> c.months[i] == c.months[0]
    ensures c.months[0].season == CustomSeason && c.months[0].rainfall == 0.0 && c.months[0].cloudCoverFraction == 0.0
    ensures c.months[0].tempDay == tempDay && c.months[0].tempNight == tempNight
    ensures c.months[0].par == par && c.months[0].photoperiod == photoperiod
    ensures c.city == base.city && c.country == base.country
    ensures c.latitude == base.latitude && c.longitude == base.longitude
    ensures c.climateParams == base.climateParams
  {
    var uniform := MonthlyClimate(CustomSeason, tempDay, tempNight, par, photoperiod, 0.0, 0.0);
    CityClimate(base.city, base.country, base.latitude, base.longitude, base.climateParams, seq(12, _ => uniform))
  }

  /**
   * A run on an overridden climate raises the seasonal lookup's KeyError for "custom" as soon as
   * it has a day to simulate (and a valid start month and a non-zero area let it get that far);
   * a run without days returns.
   */
  lemma OverriddenClimateFailsSeasonLookup(cfg: SimulationConfig, base: CityClimate,
                                           tempDay: real, tempNight: real, par: real, photoperiod: real)
    requires 1 <= cfg.startMonth <= 12
    requires cfg.durationDays > 0 ==> cfg.surfaceArea != 0.0
    ensures var climate := BuildOverriddenClimate(base, tempDay, tempNight, par, photoperiod);
            SimulationError(cfg, climate) == (if cfg.durationDays > 0 then Some(UnknownSeason(CustomSeason)) else None)
  {
    var climate := BuildOverriddenClimate(base, tempDay, tempNight, par, photoperiod);
    var dayMap := DayMap(cfg.startMonth, cfg.durationDays);
    assert InRange(climate, dayMap);
    var ms := Visited(climate, dayMap);
    if cfg.durationDays > 0 {
      assert ms[0] == climate.months[dayMap[0]] == climate.months[0];
      assert !KnownSeason(CustomSeason);
    }
  }
}
