/** Building tax: area times the construction rate of the building type
    (with or without utilities), times the zone/rank coefficient, times a
    usage multiplier for basement, semi-basement and attic rooms, times the
    local levy, which is held within 0.08% .. 0.2%. */
module BuildingTax {
  import opened TaxBase

  datatype BuildingType = TypeA | TypeB | TypeC | TypeD

  /** A row of the building rate table, in lei per m². */
  datatype BuildingRate = BuildingRate(withUtilities: real, withoutUtilities: real)

  function BuildingTypeKey(t: BuildingType): string
  {
    match t
    case TypeA => "A"
    case TypeB => "B"
    case TypeC => "C"
    case TypeD => "D"
  }

  /** Looking a type key up in the rate table. */
  function ParseBuildingType(s: string): (t: Option<BuildingType>)
    ensures t.Some? ==> BuildingTypeKey(t.value) == s
    ensures t.None? <==> s !in {"A", "B", "C", "D"}
  {
    if s == "A" then Some(TypeA)
    else if s == "B" then Some(TypeB)
    else if s == "C" then Some(TypeC)
    else if s == "D" then Some(TypeD)
    else None
  }

  /** The building rate table: lei per m² with and without utilities. */
  function BuildingTaxRate(t: BuildingType): BuildingRate
  {
    match t
    case TypeA => BuildingRate(2677.0, 1606.0)
    case TypeB => BuildingRate(803.0, 535.0)
    case TypeC => BuildingRate(535.0, 469.0)
    case TypeD => BuildingRate(335.0, 201.0)
  }

  /** `getBuildingTypeDetails`: the rate row of a type. A building with
      utilities is never rated below one without. */
  function GetBuildingTypeDetails(t: BuildingType): (r: BuildingRate)
    ensures 0.0 < r.withoutUtilities <= r.withUtilities
  {
    BuildingTaxRate(t)
  }

  /** The zone/rank coefficient table shared by the building calculator. */
  function CityCoefficient(z: Zone, r: Rank): real
  {
    match z
    case ZoneA => (match r
      case Rank0 => 2.60 case RankI => 2.50 case RankII => 2.40
      case RankIII => 2.30 case RankIV => 1.10 case RankV => 1.05)
    case ZoneB => (match r
      case Rank0 => 2.50 case RankI => 2.40 case RankII => 2.30
      case RankIII => 2.20 case RankIV => 1.05 case RankV => 1.00)
    case ZoneC => (match r
      case Rank0 => 2.40 case RankI => 2.30 case RankII => 2.20
      case RankIII => 2.10 case RankIV => 1.00 case RankV => 0.95)
    case ZoneD => (match r
      case Rank0 => 2.30 case RankI => 2.20 case RankII => 2.10
      case RankIII => 2.00 case RankIV => 0.95 case RankV => 0.90)
  }

  /** `CITY_COEFFICIENTS[zone]?.[rank]` on the caller's keys. */
  function LookupCityCoefficient(zone: string, rank: string): Option<real>
  {
    match (ParseZone(zone), ParseRank(rank))
    case (Some(z), Some(r)) => Some(CityCoefficient(z, r))
    case _ => None
  }

  datatype BuildingInput = BuildingInput(
    buildingType: string,
    area: real,
    hasUtilities: bool,
    cityRank: string,
    cityZone: string,
    localRatePercent: real,
    specialUsage: Option<string>)

  /** Rooms in a basement, semi-basement or attic used as a dwelling count
      75%, used otherwise 50%; anything else (including no usage) 100%. */
  function UsageMultiplier(specialUsage: Option<string>): (m: real)
    ensures m in {0.5, 0.75, 1.0}
    ensures m == 0.75 <==> specialUsage == Some("locuinta")
    ensures m == 0.5 <==> specialUsage == Some("alte_scopuri")
  {
    var usage := if Present(specialUsage) then specialUsage.value else "none";
    if usage == "locuinta" then 0.75 else if usage == "alte_scopuri" then 0.5 else 1.0
  }

  /** The local levy as a fraction: the percentage is clamped to
      [0.08, 0.2] and divided by 100. */
  function LocalRateFraction(localRatePercent: real): (f: real)
    ensures 0.0008 <= f <= 0.002
    ensures 0.08 <= localRatePercent <= 0.2 ==> f == localRatePercent / 100.0
    ensures localRatePercent < 0.08 ==> f == 0.0008
    ensures 0.2 < localRatePercent ==> f == 0.002
  {
    Clamp(localRatePercent, 0.08, 0.2) / 100.0
  }

  /** The amount once the rate and the coefficient are known:
      `area × rate × zoneCoeff × usageMultiplier` is the taxable base, and
      the tax is that base times the local rate fraction. */
  function AssessBuilding(area: real, rate: real, zoneCoeff: real, specialUsage: Option<string>, localRatePercent: real): TaxResult
  {
    var usageMultiplier := UsageMultiplier(specialUsage);
    var localRateFraction := LocalRateFraction(localRatePercent);
    var taxableBase := area * rate * zoneCoeff * usageMultiplier;
    TaxResult(taxableBase * localRateFraction,
              BuildingFactors(area, rate, zoneCoeff, usageMultiplier, localRateFraction))
  }

  /** The rate of a type as the utilities flag selects it. */
  function RateFor(t: BuildingType, hasUtilities: bool): real
  {
    if hasUtilities then BuildingTaxRate(t).withUtilities else BuildingTaxRate(t).withoutUtilities
  }

  /** `calculateBuildingTax`. */
  function CalculateBuildingTax(input: BuildingInput): Result<TaxResult>
  {
    match ParseBuildingType(input.buildingType)
    case None => Err(InvalidBuildingType)
    case Some(t) =>
      var rate := RateFor(t, input.hasUtilities);
      match LookupCityCoefficient(input.cityZone, input.cityRank)
      case None => Err(InvalidZoneRank)
      case Some(zoneCoeff) =>
        Ok(AssessBuilding(input.area, rate, zoneCoeff, input.specialUsage, input.localRatePercent))
  }

  /** The factors the breakdown shows: the usage multiplier only when it is
      not 1. */
  function BuildingFactors(area: real, rate: real, zoneCoeff: real, usageMultiplier: real, localRateFraction: real): seq<real>
  {
    if usageMultiplier == 1.0 then [area, rate, zoneCoeff, localRateFraction]
    else [area, rate, zoneCoeff, usageMultiplier, localRateFraction]
  }

  // ---------------------------------------------------------------------
  // Lemmas

  /** The calculator fails exactly on an unknown type key, which is checked
      first, or on a zone or rank key with no coefficient. */
  lemma BuildingTaxErrors(input: BuildingInput)
    ensures CalculateBuildingTax(input) == Err(InvalidBuildingType)
      <==> ParseBuildingType(input.buildingType).None?
    ensures CalculateBuildingTax(input) == Err(InvalidZoneRank)
      <==> ParseBuildingType(input.buildingType).Some?
           && (ParseZone(input.cityZone).None? || ParseRank(input.cityRank).None?)
    ensures CalculateBuildingTax(input).Ok?
      <==> ParseBuildingType(input.buildingType).Some?
           && ParseZone(input.cityZone).Some? && ParseRank(input.cityRank).Some?
  {
  }

  /** The amount is the product of the five factors. */
  lemma AssessBuildingProduct(area: real, rate: real, zoneCoeff: real, specialUsage: Option<string>, localRatePercent: real)
    ensures AssessBuilding(area, rate, zoneCoeff, specialUsage, localRatePercent).tax
      == area * rate * zoneCoeff * UsageMultiplier(specialUsage) * LocalRateFraction(localRatePercent)
  {
  }

  /** With every key known, the calculator assesses the looked-up rate and
      coefficient. */
  lemma BuildingTaxAssesses(input: BuildingInput, t: BuildingType, z: Zone, r: Rank)
    requires ParseBuildingType(input.buildingType) == Some(t)
    requires ParseZone(input.cityZone) == Some(z) && ParseRank(input.cityRank) == Some(r)
    ensures CalculateBuildingTax(input)
      == Ok(AssessBuilding(input.area, RateFor(t, input.hasUtilities), CityCoefficient(z, r),
                           input.specialUsage, input.localRatePercent))
  {
  }

  /** Products of non-negative factors grow with each factor. */
  lemma ProductMonotone(a1: real, a2: real, b1: real, b2: real)
    requires 0.0 <= a1 <= a2 && 0.0 <= b1 <= b2
    ensures 0.0 <= a1 * b1 <= a2 * b2
  {
    MulMonotone(a1, a2, b1);
    MulMonotone(b1, b2, a2);
    MulMonotone(0.0, a1, b1);
  }

  /** The assessed amount is non-decreasing in the area, the rate, the
      coefficient and the usage multiplier, all taken non-negative. */
  lemma AssessBuildingMonotone(
    area1: real, area2: real, rate1: real, rate2: real, coeff1: real, coeff2: real,
    usage1: Option<string>, usage2: Option<string>, localRatePercent: real)
    requires 0.0 <= area1 <= area2 && 0.0 <= rate1 <= rate2 && 0.0 <= coeff1 <= coeff2
    requires UsageMultiplier(usage1) <= UsageMultiplier(usage2)
    ensures 0.0 <= AssessBuilding(area1, rate1, coeff1, usage1, localRatePercent).tax
    ensures AssessBuilding(area1, rate1, coeff1, usage1, localRatePercent).tax
      <= AssessBuilding(area2, rate2, coeff2, usage2, localRatePercent).tax
  {
    AssessBuildingProduct(area1, rate1, coeff1, usage1, localRatePercent);
    AssessBuildingProduct(area2, rate2, coeff2, usage2, localRatePercent);
    FactorsMonotone(area1, area2, rate1, rate2, coeff1, coeff2,
                    UsageMultiplier(usage1), UsageMultiplier(usage2), LocalRateFraction(localRatePercent));
  }

  lemma FactorsMonotone(a1: real, a2: real, b1: real, b2: real, c1: real, c2: real, m1: real, m2: real, f: real)
    requires 0.0 <= a1 <= a2 && 0.0 <= b1 <= b2 && 0.0 <= c1 <= c2 && 0.0 <= m1 <= m2 && 0.0 <= f
    ensures 0.0 <= a1 * b1 * c1 * m1 * f <= a2 * b2 * c2 * m2 * f
  {
    ProductMonotone(a1, a2, b1, b2);
    ProductMonotone(a1 * b1, a2 * b2, c1, c2);
    ProductMonotone(a1 * b1 * c1, a2 * b2 * c2, m1, m2);
    ProductMonotone(a1 * b1 * c1 * m1, a2 * b2 * c2 * m2, f, f);
  }

  /** The amount depends on the usage and the local percentage only through
      the multiplier and the fraction they give. */
  lemma AssessBuildingByMultipliers(area: real, rate: real, zoneCoeff: real,
    usage1: Option<string>, usage2: Option<string>, percent1: real, percent2: real)
    requires UsageMultiplier(usage1) == UsageMultiplier(usage2)
    requires LocalRateFraction(percent1) == LocalRateFraction(percent2)
    ensures AssessBuilding(area, rate, zoneCoeff, usage1, percent1) == AssessBuilding(area, rate, zoneCoeff, usage2, percent2)
  {
  }

  /** The rate table: with utilities is never cheaper than without, and all
      rates are positive. */
  lemma UtilitiesRateDominates(t: BuildingType)
    ensures 0.0 < RateFor(t, false) <= RateFor(t, true)
  {
  }

  /** The coefficients are positive and do not increase from rank 0 towards
      rank V, nor from zone A towards zone D. */
  lemma CityCoefficientsOrdered(z1: Zone, z2: Zone, r1: Rank, r2: Rank)
    requires ZoneIndex(z1) <= ZoneIndex(z2) && RankIndex(r1) <= RankIndex(r2)
    ensures 0.0 < CityCoefficient(z2, r2) <= CityCoefficient(z1, r1)
  {
  }

  /** A local percentage below 0.08 is treated as 0.08 and one above 0.2 as
      0.2, without any error. */
  lemma LocalRateClamped(input: BuildingInput)
    ensures input.localRatePercent < 0.08 ==>
      CalculateBuildingTax(input) == CalculateBuildingTax(input.(localRatePercent := 0.08))
    ensures 0.2 < input.localRatePercent ==>
      CalculateBuildingTax(input) == CalculateBuildingTax(input.(localRatePercent := 0.2))
  {
    var bound := if input.localRatePercent < 0.08 then 0.08 else 0.2;
    if (input.localRatePercent < 0.08 || 0.2 < input.localRatePercent) && CalculateBuildingTax(input).Ok? {
      var t, z, r := ParseBuildingType(input.buildingType).value, ParseZone(input.cityZone).value, ParseRank(input.cityRank).value;
      BuildingTaxAssesses(input, t, z, r);
      BuildingTaxAssesses(input.(localRatePercent := bound), t, z, r);
      AssessBuildingByMultipliers(input.area, RateFor(t, input.hasUtilities), CityCoefficient(z, r),
        input.specialUsage, input.specialUsage, input.localRatePercent, bound);
    }
  }

  /** Enlarging the area never lowers the tax. */
  lemma BuildingTaxMonotoneInArea(input: BuildingInput, larger: real)
    requires 0.0 <= input.area <= larger
    requires CalculateBuildingTax(input).Ok?
    ensures CalculateBuildingTax(input.(area := larger)).Ok?
    ensures 0.0 <= CalculateBuildingTax(input).value.tax <= CalculateBuildingTax(input.(area := larger)).value.tax
  {
    var t, z, r := ParseBuildingType(input.buildingType).value, ParseZone(input.cityZone).value, ParseRank(input.cityRank).value;
    BuildingTaxAssesses(input, t, z, r);
    BuildingTaxAssesses(input.(area := larger), t, z, r);
    UtilitiesRateDominates(t);
    CityCoefficientsOrdered(z, z, r, r);
    AssessBuildingMonotone(input.area, larger, RateFor(t, input.hasUtilities), RateFor(t, input.hasUtilities),
      CityCoefficient(z, r), CityCoefficient(z, r), input.specialUsage, input.specialUsage, input.localRatePercent);
  }

  /** Switching utilities on never lowers the tax of a non-negative area. */
  lemma UtilitiesNeverLower(input: BuildingInput)
    requires 0.0 <= input.area
    requires CalculateBuildingTax(input).Ok?
    ensures CalculateBuildingTax(input.(hasUtilities := false)).value.tax
      <= CalculateBuildingTax(input.(hasUtilities := true)).value.tax
  {
    var t, z, r := ParseBuildingType(input.buildingType).value, ParseZone(input.cityZone).value, ParseRank(input.cityRank).value;
    BuildingTaxAssesses(input.(hasUtilities := false), t, z, r);
    BuildingTaxAssesses(input.(hasUtilities := true), t, z, r);
    UtilitiesRateDominates(t);
    CityCoefficientsOrdered(z, z, r, r);
    AssessBuildingMonotone(input.area, input.area, RateFor(t, false), RateFor(t, true),
      CityCoefficient(z, r), CityCoefficient(z, r), input.specialUsage, input.specialUsage, input.localRatePercent);
  }

  /** Of two usages, the one with the smaller multiplier never pays more. */
  lemma UsageOrder(input: BuildingInput, usage1: Option<string>, usage2: Option<string>)
    requires 0.0 <= input.area
    requires CalculateBuildingTax(input).Ok?
    requires UsageMultiplier(usage1) <= UsageMultiplier(usage2)
    ensures CalculateBuildingTax(input.(specialUsage := usage1)).value.tax
      <= CalculateBuildingTax(input.(specialUsage := usage2)).value.tax
  {
    var t, z, r := ParseBuildingType(input.buildingType).value, ParseZone(input.cityZone).value, ParseRank(input.cityRank).value;
    BuildingTaxAssesses(input.(specialUsage := usage1), t, z, r);
    BuildingTaxAssesses(input.(specialUsage := usage2), t, z, r);
    UtilitiesRateDominates(t);
    CityCoefficientsOrdered(z, z, r, r);
    AssessBuildingMonotone(input.area, input.area, RateFor(t, input.hasUtilities), RateFor(t, input.hasUtilities),
      CityCoefficient(z, r), CityCoefficient(z, r), usage1, usage2, input.localRatePercent);
  }

  /** For a non-negative area, rooms used otherwise pay no more than rooms
      used as a dwelling, which pay no more than ordinary use; an absent usage
      is ordinary use. */
  lemma SpecialUsageNeverRaises(input: BuildingInput)
    requires 0.0 <= input.area
    requires CalculateBuildingTax(input).Ok?
    ensures CalculateBuildingTax(input.(specialUsage := Some("alte_scopuri"))).value.tax
      <= CalculateBuildingTax(input.(specialUsage := Some("locuinta"))).value.tax
      <= CalculateBuildingTax(input.(specialUsage := Some("none"))).value.tax
    ensures CalculateBuildingTax(input.(specialUsage := None)) == CalculateBuildingTax(input.(specialUsage := Some("none")))
  {
    assert UsageMultiplier(Some("alte_scopuri")) == 0.5;
    assert UsageMultiplier(Some("locuinta")) == 0.75;
    assert UsageMultiplier(Some("none")) == 1.0 == UsageMultiplier(None);
    UsageOrder(input, Some("alte_scopuri"), Some("locuinta"));
    UsageOrder(input, Some("locuinta"), Some("none"));
    var t, z, r := ParseBuildingType(input.buildingType).value, ParseZone(input.cityZone).value, ParseRank(input.cityRank).value;
    BuildingTaxAssesses(input.(specialUsage := Some("none")), t, z, r);
    BuildingTaxAssesses(input.(specialUsage := None), t, z, r);
    AssessBuildingByMultipliers(input.area, RateFor(t, input.hasUtilities), CityCoefficient(z, r),
      None, Some("none"), input.localRatePercent, input.localRatePercent);
  }

  /** The assessed breakdown multiplies out to the assessed amount. */
  lemma AssessBuildingMultipliesOut(area: real, rate: real, zoneCoeff: real, specialUsage: Option<string>, localRatePercent: real)
    ensures FactorsMultiplyToTax(AssessBuilding(area, rate, zoneCoeff, specialUsage, localRatePercent))
  {
    var u, f := UsageMultiplier(specialUsage), LocalRateFraction(localRatePercent);
    AssessBuildingProduct(area, rate, zoneCoeff, specialUsage, localRatePercent);
    ProductOfFive(area, rate, zoneCoeff, u, f);
    ProductOfFour(area, rate, zoneCoeff, f);
  }

  /** The breakdown factors multiply out to the tax. */
  lemma BuildingBreakdownMultipliesOut(input: BuildingInput)
    requires CalculateBuildingTax(input).Ok?
    ensures FactorsMultiplyToTax(CalculateBuildingTax(input).value)
  {
    var t, z, r := ParseBuildingType(input.buildingType).value, ParseZone(input.cityZone).value, ParseRank(input.cityRank).value;
    BuildingTaxAssesses(input, t, z, r);
    AssessBuildingMultipliesOut(input.area, RateFor(t, input.hasUtilities), CityCoefficient(z, r),
                                input.specialUsage, input.localRatePercent);
  }
}
