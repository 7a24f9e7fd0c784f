/**
 * The option lists the calculator's forms offer, as the keys they submit,
 * in the order they are listed, and how each list lines up with the keys
 * the tax functions accept.
 */
module Enumerations {
  import opened TaxBase
  import opened VehicleTax
  import opened BuildingTax
  import opened LandTax

  /** `getVehicleTypes`. */
  const VehicleTypes: seq<string> := ["car", "motorcycle", "bus", "other"]

  /** `getEuroNorms`. */
  const EuroNorms: seq<string> :=
    ["euro0_3", "euro4", "euro5", "euro6", "hybrid_le_50", "hybrid_gt_50", "electric"]

  /** `getBuildingTypes`. */
  const BuildingTypes: seq<string> := ["A", "B", "C", "D"]

  /** `getCityRanks`. */
  const CityRanks: seq<string> := ["0", "I", "II", "III", "IV", "V"]

  /** `getCityZones`. */
  const CityZones: seq<string> := ["A", "B", "C", "D"]

  /** `getLandTaxScenarios`. */
  const LandTaxScenarios: seq<string> := ["intravilan_construction", "intravilan_other_large", "extravilan"]

  /** `getLandUseCategories`. */
  const LandUseCategories: seq<string> :=
    ["arable", "pasture", "hayfield", "vine", "orchard", "forest", "water",
     "roads", "unproductive", "beach", "construction"]

  /** The key a form submits for each vehicle category. */
  function VehicleTypeKey(c: VehicleCategory): string
  {
    match c
    case Car => "car"
    case Motorcycle => "motorcycle"
    case Bus => "bus"
    case OtherVehicle => "other"
  }

  // ---------------------------------------------------------------------
  // Lemmas

  /** Each listed vehicle type selects its own category, and every category
      is listed, once. */
  lemma VehicleTypesCoverCategories()
    ensures forall i :: 0 <= i < |VehicleTypes| ==> VehicleTypeKey(CategoryOf(VehicleTypes[i])) == VehicleTypes[i]
    ensures forall c: VehicleCategory :: VehicleTypeKey(c) in VehicleTypes && CategoryOf(VehicleTypeKey(c)) == c
  {
  }

  /** A Euro norm is listed exactly when the vehicle tax accepts it: either
      the electric flat rate or a column of the rate table. */
  lemma EuroNormsAccepted(euro: string)
    ensures euro in EuroNorms <==> euro == "electric" || ColumnOf(euro).Some?
  {
  }

  /** The listed building types, zones and ranks are exactly the keys the
      building and land tables accept. */
  lemma BuildingKeysAccepted(key: string)
    ensures key in BuildingTypes <==> ParseBuildingType(key).Some?
    ensures key in CityZones <==> ParseZone(key).Some?
    ensures key in CityRanks <==> ParseRank(key).Some?
  {
  }

  /** The listed land-use categories are exactly the ones the tables know. */
  lemma LandUseCategoriesAccepted(key: string)
    ensures key in LandUseCategories <==> ParseLandUse(key).Some?
  {
  }

  /** The land tax rejects a scenario as unknown exactly when it is not
      listed. */
  lemma LandTaxScenariosAccepted(input: LandInput)
    ensures CalculateLandTax(input) == Err(InvalidScenario) <==> input.scenario !in LandTaxScenarios
  {
    LandUnknownScenario(input);
  }

  /** Of the listed categories, only "construction" has no intravilan base
      rate in any zone, so the intravilan-without-construction scenario
      turns it down. */
  lemma OnlyConstructionLacksIntravilanBase(zone: Zone, i: int)
    requires 0 <= i < |LandUseCategories|
    ensures BaseFor(ZoneKey(zone), LandUseCategories[i]).None? <==> LandUseCategories[i] == "construction"
  {
    var u := ParseLandUse(LandUseCategories[i]).value;
    ZoneKeyRoundTrip(zone);
    IntravilanOtherBaseWellFormed(zone, u);
  }
}
