/** Land tax: three scenarios, each with its own required fields, rate
    tables and formula; the area is given in m² and rated per hectare. */
module LandTax {
  import opened TaxBase

  /** Land-use categories of the rate tables. */
  datatype LandUse =
    | Arable | Pasture | Hayfield | Vine | Orchard | Forest
    | Water | Roads | Unproductive | Beach | Construction

  function LandUseKey(u: LandUse): string
  {
    match u
    case Arable => "arable"
    case Pasture => "pasture"
    case Hayfield => "hayfield"
    case Vine => "vine"
    case Orchard => "orchard"
    case Forest => "forest"
    case Water => "water"
    case Roads => "roads"
    case Unproductive => "unproductive"
    case Beach => "beach"
    case Construction => "construction"
  }

  /** Exactly the eleven category keys of the tables are recognised, and an
      accepted key is the key of the category it names. */
  function ParseLandUse(s: string): (u: Option<LandUse>)
    ensures u.None? <==> s !in {"arable", "pasture", "hayfield", "vine", "orchard", "forest",
                                "water", "roads", "unproductive", "beach", "construction"}
    ensures u.Some? ==> LandUseKey(u.value) == s
  {
    if s == "arable" then Some(Arable)
    else if s == "pasture" then Some(Pasture)
    else if s == "hayfield" then Some(Hayfield)
    else if s == "vine" then Some(Vine)
    else if s == "orchard" then Some(Orchard)
    else if s == "forest" then Some(Forest)
    else if s == "water" then Some(Water)
    else if s == "roads" then Some(Roads)
    else if s == "unproductive" then Some(Unproductive)
    else if s == "beach" then Some(Beach)
    else if s == "construction" then Some(Construction)
    else None
  }

  /** Each category's key parses back to that category. */
  lemma ParseLandUseKeys(u: LandUse)
    ensures ParseLandUse(LandUseKey(u)) == Some(u)
  {
  }

  /** A rate range in lei per hectare. */
  datatype RateRange = RateRange(min: real, max: real)

  /** Intravilan land with construction: a range per (zone, rank). */
  function IntravilanConstructionRange(z: Zone, r: Rank): RateRange
  {
    match z
    case ZoneA => (match r
      case Rank0 => RateRange(8282.0, 20706.0) case RankI => RateRange(6878.0, 17194.0)
      case RankII => RateRange(6042.0, 15106.0) case RankIII => RateRange(5236.0, 13090.0)
      case RankIV => RateRange(711.0, 1788.0) case RankV => RateRange(569.0, 1422.0))
    case ZoneB => (match r
      case Rank0 => RateRange(6878.0, 17194.0) case RankI => RateRange(5199.0, 12998.0)
      case RankII => RateRange(4215.0, 10538.0) case RankIII => RateRange(3558.0, 8894.0)
      case RankIV => RateRange(569.0, 1422.0) case RankV => RateRange(427.0, 1068.0))
    case ZoneC => (match r
      case Rank0 => RateRange(5199.0, 12998.0) case RankI => RateRange(3558.0, 8894.0)
      case RankII => RateRange(2668.0, 6670.0) case RankIII => RateRange(1690.0, 4226.0)
      case RankIV => RateRange(427.0, 1068.0) case RankV => RateRange(284.0, 710.0))
    case ZoneD => (match r
      case Rank0 => RateRange(3558.0, 8894.0) case RankI => RateRange(1690.0, 4226.0)
      case RankII => RateRange(1410.0, 3526.0) case RankIII => RateRange(984.0, 2439.0)
      case RankIV => RateRange(278.0, 696.0) case RankV => RateRange(142.0, 356.0))
  }

  /** Intravilan land without construction above 400 m²: a base rate per
      (zone, category). Construction land has no entry. */
  function IntravilanOtherBase(z: Zone, u: LandUse): Option<real>
  {
    match z
    case ZoneA => (match u
      case Arable => Some(75.0) case Pasture => Some(56.0) case Hayfield => Some(56.0)
      case Vine => Some(122.0) case Orchard => Some(143.0) case Forest => Some(75.0)
      case Water => Some(41.0) case Roads => Some(0.0) case Unproductive => Some(0.0)
      case Beach => Some(41.0) case Construction => None)
    case ZoneB => (match u
      case Arable => Some(56.0) case Pasture => Some(51.0) case Hayfield => Some(51.0)
      case Vine => Some(94.0) case Orchard => Some(122.0) case Forest => Some(56.0)
      case Water => Some(36.0) case Roads => Some(0.0) case Unproductive => Some(0.0)
      case Beach => Some(36.0) case Construction => None)
    case ZoneC => (match u
      case Arable => Some(51.0) case Pasture => Some(41.0) case Hayfield => Some(41.0)
      case Vine => Some(75.0) case Orchard => Some(94.0) case Forest => Some(51.0)
      case Water => Some(22.0) case Roads => Some(0.0) case Unproductive => Some(0.0)
      case Beach => Some(22.0) case Construction => None)
    case ZoneD => (match u
      case Arable => Some(41.0) case Pasture => Some(36.0) case Hayfield => Some(36.0)
      case Vine => Some(51.0) case Orchard => Some(75.0) case Forest => Some(41.0)
      case Water => Some(0.0) case Roads => Some(0.0) case Unproductive => Some(0.0)
      case Beach => Some(0.0) case Construction => None)
  }

  /** Correction coefficient by locality rank, shared by the
      intravilan-without-construction and the extravilan scenarios. */
  function CorrectionCoefficient(r: Rank): real
  {
    match r
    case Rank0 => 8.0
    case RankI => 5.0
    case RankII => 4.0
    case RankIII => 3.0
    case RankIV => 1.1
    case RankV => 1.0
  }

  /** An extravilan entry is either a range or a single number. */
  datatype ExtravilanBase = Range(lo: real, hi: real) | Scalar(value: real)

  /** Extravilan land: a base entry per category. */
  function ExtravilanBaseRate(u: LandUse): ExtravilanBase
  {
    match u
    case Construction => Range(60.0, 83.0)
    case Arable => Range(112.0, 134.0)
    case Pasture => Range(54.0, 75.0)
    case Hayfield => Range(54.0, 75.0)
    case Vine => Range(129.0, 148.0)
    case Orchard => Range(129.0, 150.0)
    case Forest => Range(22.0, 43.0)
    case Water => Range(3.0, 15.0)
    case Roads => Range(0.0, 0.0)
    case Unproductive => Scalar(0.0)
    case Beach => Range(3.0, 15.0)
  }

  /** A single number stands for the range from itself to itself. */
  function AsRange(b: ExtravilanBase): (r: RateRange)
    ensures b.Scalar? ==> r.min == r.max == b.value
    ensures b.Range? ==> r.min == b.lo && r.max == b.hi
  {
    match b
    case Range(lo, hi) => RateRange(lo, hi)
    case Scalar(v) => RateRange(v, v)
  }

  function Midpoint(r: RateRange): real
  {
    (r.min + r.max) / 2.0
  }

  /** The calculator's input. Which optional fields are required depends on
      the scenario. */
  datatype LandInput = LandInput(
    scenario: string,
    areaM2: real,
    cityZone: Option<string>,
    cityRank: Option<string>,
    landUseCategory: Option<string>)

  /** The area in hectares: 10000 m² make a hectare. */
  function Hectares(areaM2: real): (ha: real)
    ensures ha * 10000.0 == areaM2
  {
    areaM2 / 10000.0
  }

  /** A rate per hectare and the factors that make it up in the breakdown. */
  datatype Rating = Rating(ratePerHa: real, rateFactors: seq<real>)

  /** Intravilan land with construction: the midpoint of the (zone, rank)
      range. */
  function RateIntravilanConstruction(zone: Option<string>, rank: Option<string>): Result<Rating>
  {
    if !Present(zone) || !Present(rank) then
      Err(MissingFields("intravilan_construction"))
    else
      match (ParseZone(zone.value), ParseRank(rank.value))
      case (Some(z), Some(r)) =>
        var ratePerHa := Midpoint(IntravilanConstructionRange(z, r));
        Ok(Rating(ratePerHa, [ratePerHa]))
      case _ => Err(InvalidZoneRank)
  }

  /** Intravilan land without construction above 400 m²: the base rate times
      the rank coefficient. */
  function RateIntravilanOther(zone: Option<string>, rank: Option<string>, category: Option<string>): Result<Rating>
  {
    if !Present(zone) || !Present(rank) || !Present(category) then
      Err(MissingFields("intravilan_other_large"))
    else
      match BaseFor(zone.value, category.value)
      case None => Err(InvalidZoneOrLandUse)
      case Some(baseRate) =>
        match ParseRank(rank.value)
        case None => Err(InvalidRank)
        case Some(r) =>
          Ok(ScaledRating(baseRate, CorrectionCoefficient(r)))
  }

  /** Extravilan land: the category's entry is looked up before the rank. */
  function RateExtravilan(rank: Option<string>, category: Option<string>): Result<Rating>
  {
    if !Present(rank) || !Present(category) then
      Err(MissingFields("extravilan"))
    else
      match ParseLandUse(category.value)
      case None => Err(InvalidLandUse)
      case Some(u) =>
        match ParseRank(rank.value)
        case None => Err(InvalidRank)
        case Some(r) => Ok(ScaledRating(Midpoint(AsRange(ExtravilanBaseRate(u))), CorrectionCoefficient(r)))
  }

  /** A base rate per hectare scaled by the rank's correction coefficient. */
  function ScaledRating(baseRate: real, coefficient: real): Rating
  {
    Rating(baseRate * coefficient, [baseRate, coefficient])
  }

  /** The tax on an area at a base rate scaled by a coefficient, with the
      three factors as its breakdown. */
  function ScaledTax(areaHa: real, baseRate: real, coefficient: real): TaxResult
  {
    TaxResult(areaHa * (baseRate * coefficient), [areaHa, baseRate, coefficient])
  }

  /** Scenario dispatch: the part of `calculateLandTax` that does not depend
      on the area. */
  function LandRating(scenario: string, zone: Option<string>, rank: Option<string>, category: Option<string>): Result<Rating>
  {
    if scenario == "intravilan_construction" then RateIntravilanConstruction(zone, rank)
    else if scenario == "intravilan_other_large" then RateIntravilanOther(zone, rank, category)
    else if scenario == "extravilan" then RateExtravilan(rank, category)
    else Err(InvalidScenario)
  }

  /** `calculateLandTax`: the area in hectares times the scenario's rate per
      hectare. */
  function CalculateLandTax(input: LandInput): Result<TaxResult>
  {
    ApplyRating(Hectares(input.areaM2), LandRating(input.scenario, input.cityZone, input.cityRank, input.landUseCategory))
  }

  /** The tax for an area in hectares at a rating, or the rating's error. */
  function ApplyRating(areaHa: real, rating: Result<Rating>): Result<TaxResult>
  {
    match rating
    case Err(e) => Err(e)
    case Ok(g) => Ok(TaxResult(areaHa * g.ratePerHa, [areaHa] + g.rateFactors))
  }

  /** `LAND_TAX_INTRAVILAN_OTHER_BASE[zone]?.[category]` on the caller's keys. */
  function BaseFor(zone: string, category: string): Option<real>
  {
    match (ParseZone(zone), ParseLandUse(category))
    case (Some(z), Some(u)) => IntravilanOtherBase(z, u)
    case _ => None
  }

  // ---------------------------------------------------------------------
  // Lemmas

  /** Each scenario fails with its missing-fields error exactly when one of
      its required fields is absent or empty; fields it does not require are
      never consulted for this. */
  lemma LandRequiredFields(input: LandInput)
    ensures input.scenario == "intravilan_construction" ==>
      (CalculateLandTax(input) == Err(MissingFields("intravilan_construction")) <==>
         !Present(input.cityZone) || !Present(input.cityRank))
    ensures input.scenario == "intravilan_other_large" ==>
      (CalculateLandTax(input) == Err(MissingFields("intravilan_other_large")) <==>
         !Present(input.cityZone) || !Present(input.cityRank) || !Present(input.landUseCategory))
    ensures input.scenario == "extravilan" ==>
      (CalculateLandTax(input) == Err(MissingFields("extravilan")) <==>
         !Present(input.cityRank) || !Present(input.landUseCategory))
  {
  }

  /** Any other scenario key is rejected, and only such a key. */
  lemma LandUnknownScenario(input: LandInput)
    ensures CalculateLandTax(input) == Err(InvalidScenario)
      <==> input.scenario !in {"intravilan_construction", "intravilan_other_large", "extravilan"}
  {
  }

  /** Intravilan land with construction: with zone and rank present, a
      table miss is an error, and otherwise the tax is the area in hectares
      times the midpoint of the (zone, rank) range. */
  lemma IntravilanConstructionFormula(input: LandInput)
    requires input.scenario == "intravilan_construction"
    requires Present(input.cityZone) && Present(input.cityRank)
    ensures CalculateLandTax(input) == Err(InvalidZoneRank)
      <==> ParseZone(input.cityZone.value).None? || ParseRank(input.cityRank.value).None?
    ensures CalculateLandTax(input).Ok? ==>
      var range := IntravilanConstructionRange(ParseZone(input.cityZone.value).value, ParseRank(input.cityRank.value).value);
      CalculateLandTax(input).value.tax == input.areaM2 / 10000.0 * ((range.min + range.max) / 2.0)
  {
  }

  /** Intravilan land without construction above 400 m²: the base rate is
      missing for an unknown zone or category and for construction land, and
      the rank is looked up only after it. */
  lemma IntravilanOtherErrors(input: LandInput)
    requires input.scenario == "intravilan_other_large"
    requires Present(input.cityZone) && Present(input.cityRank) && Present(input.landUseCategory)
    ensures CalculateLandTax(input) == Err(InvalidZoneOrLandUse)
      <==> ParseZone(input.cityZone.value).None? || ParseLandUse(input.landUseCategory.value).None?
           || input.landUseCategory.value == "construction"
    ensures CalculateLandTax(input) == Err(InvalidRank)
      <==> BaseFor(input.cityZone.value, input.landUseCategory.value).Some? && ParseRank(input.cityRank.value).None?
  {
    var zs, us := ParseZone(input.cityZone.value), ParseLandUse(input.landUseCategory.value);
    if zs.Some? && us.Some? {
      IntravilanOtherBaseWellFormed(zs.value, us.value);
    }
  }

  /** Intravilan land without construction above 400 m²: the tax is the
      area in hectares times the base rate times the rank coefficient. */
  lemma IntravilanOtherFormula(input: LandInput, z: Zone, r: Rank, u: LandUse)
    requires input.scenario == "intravilan_other_large"
    requires Present(input.cityZone) && Present(input.cityRank) && Present(input.landUseCategory)
    requires ParseZone(input.cityZone.value) == Some(z) && ParseRank(input.cityRank.value) == Some(r)
    requires ParseLandUse(input.landUseCategory.value) == Some(u) && u != Construction
    ensures IntravilanOtherBase(z, u).Some?
    ensures CalculateLandTax(input)
      == Ok(ScaledTax(Hectares(input.areaM2), IntravilanOtherBase(z, u).value, CorrectionCoefficient(r)))
  {
    IntravilanOtherBaseWellFormed(z, u);
    LandRatingDispatch(input.scenario, input.cityZone, input.cityRank, input.landUseCategory);
    LandTaxOfScaledRating(input, IntravilanOtherBase(z, u).value, CorrectionCoefficient(r));
  }

  /** Extravilan land: an unknown category, then an unknown rank, is an
      error. */
  lemma ExtravilanErrors(input: LandInput)
    requires input.scenario == "extravilan"
    requires Present(input.cityRank) && Present(input.landUseCategory)
    ensures CalculateLandTax(input) == Err(InvalidLandUse) <==> ParseLandUse(input.landUseCategory.value).None?
    ensures CalculateLandTax(input) == Err(InvalidRank)
      <==> ParseLandUse(input.landUseCategory.value).Some? && ParseRank(input.cityRank.value).None?
  {
  }

  /** Extravilan land: the tax is the area in hectares times the midpoint of
      the category's range (a scalar entry being its own range) times the
      rank coefficient. */
  lemma ExtravilanFormula(input: LandInput, r: Rank, u: LandUse)
    requires input.scenario == "extravilan"
    requires Present(input.cityRank) && Present(input.landUseCategory)
    requires ParseRank(input.cityRank.value) == Some(r) && ParseLandUse(input.landUseCategory.value) == Some(u)
    ensures CalculateLandTax(input)
      == Ok(ScaledTax(Hectares(input.areaM2), Midpoint(AsRange(ExtravilanBaseRate(u))), CorrectionCoefficient(r)))
  {
    ExtravilanRateParsed(input, r, u);
    LandTaxOfScaledRating(input, Midpoint(AsRange(ExtravilanBaseRate(u))), CorrectionCoefficient(r));
  }

  lemma ExtravilanRateParsed(input: LandInput, r: Rank, u: LandUse)
    requires input.scenario == "extravilan"
    requires Present(input.cityRank) && Present(input.landUseCategory)
    requires ParseRank(input.cityRank.value) == Some(r) && ParseLandUse(input.landUseCategory.value) == Some(u)
    ensures LandRating(input.scenario, input.cityZone, input.cityRank, input.landUseCategory)
      == Ok(ScaledRating(Midpoint(AsRange(ExtravilanBaseRate(u))), CorrectionCoefficient(r)))
  {
    LandRatingDispatch(input.scenario, input.cityZone, input.cityRank, input.landUseCategory);
  }

  /** Construction land has no intravilan base rate, so that scenario
      rejects it. */
  lemma ConstructionRejectedIntravilanOther(areaM2: real, zone: string, rank: string)
    requires zone != "" && rank != ""
    ensures CalculateLandTax(LandInput("intravilan_other_large", areaM2, Some(zone), Some(rank), Some("construction")))
      == Err(InvalidZoneOrLandUse)
  {
    IntravilanOtherErrors(LandInput("intravilan_other_large", areaM2, Some(zone), Some(rank), Some("construction")));
  }

  /** One hectare in zone A of a rank-0 locality: the midpoint of
      8282..20706, that is 14494. */
  lemma IntravilanConstructionExample()
    ensures CalculateLandTax(LandInput("intravilan_construction", 10000.0, Some("A"), Some("0"), None))
      == Ok(TaxResult(14494.0, [1.0, 14494.0]))
  {
    var input := LandInput("intravilan_construction", 10000.0, Some("A"), Some("0"), None);
    assert RateIntravilanConstruction(Some("A"), Some("0")) == Ok(Rating(14494.0, [14494.0]));
    assert [1.0] + [14494.0] == [1.0, 14494.0];
  }

  /** Every intravilan construction range is well formed and non-negative,
      so its midpoint lies within it. */
  lemma ConstructionRangesWellFormed(z: Zone, r: Rank)
    ensures 0.0 <= IntravilanConstructionRange(z, r).min <= IntravilanConstructionRange(z, r).max
    ensures IntravilanConstructionRange(z, r).min <= Midpoint(IntravilanConstructionRange(z, r))
            <= IntravilanConstructionRange(z, r).max
  {
  }

  /** Every intravilan base rate is non-negative, and only construction land
      has none. */
  lemma IntravilanOtherBaseWellFormed(z: Zone, u: LandUse)
    ensures IntravilanOtherBase(z, u).Some? ==> 0.0 <= IntravilanOtherBase(z, u).value
    ensures IntravilanOtherBase(z, u).None? <==> u == Construction
  {
  }

  /** Every extravilan entry is a well-formed non-negative range, so its
      midpoint lies within it. */
  lemma ExtravilanRangesWellFormed(u: LandUse)
    ensures 0.0 <= AsRange(ExtravilanBaseRate(u)).min <= AsRange(ExtravilanBaseRate(u)).max
    ensures AsRange(ExtravilanBaseRate(u)).min <= Midpoint(AsRange(ExtravilanBaseRate(u)))
            <= AsRange(ExtravilanBaseRate(u)).max
  {
  }

  /** Correction coefficients are at least 1 and do not increase from rank
      0 towards rank V. */
  lemma CorrectionCoefficientsOrdered(r1: Rank, r2: Rank)
    requires RankIndex(r1) <= RankIndex(r2)
    ensures 1.0 <= CorrectionCoefficient(r2) <= CorrectionCoefficient(r1)
  {
  }

  /** A non-negative rating whose factors multiply out to it. */
  predicate WellRated(g: Rating)
  {
    0.0 <= g.ratePerHa && 1 <= |g.rateFactors| <= 2 && Product(g.rateFactors) == g.ratePerHa
  }

  lemma IntravilanConstructionRated(zone: Option<string>, rank: Option<string>)
    requires RateIntravilanConstruction(zone, rank).Ok?
    ensures WellRated(RateIntravilanConstruction(zone, rank).value)
  {
    var z, r := ParseZone(zone.value).value, ParseRank(rank.value).value;
    var rate := Midpoint(IntravilanConstructionRange(z, r));
    assert RateIntravilanConstruction(zone, rank) == Ok(Rating(rate, [rate]));
    ConstructionRangesWellFormed(z, r);
    ProductOfOne(rate);
  }

  lemma IntravilanOtherRated(zone: Option<string>, rank: Option<string>, category: Option<string>)
    requires RateIntravilanOther(zone, rank, category).Ok?
    ensures WellRated(RateIntravilanOther(zone, rank, category).value)
  {
    var z, r, u := ParseZone(zone.value).value, ParseRank(rank.value).value, ParseLandUse(category.value).value;
    var base, coefficient := IntravilanOtherBase(z, u).value, CorrectionCoefficient(r);
    assert RateIntravilanOther(zone, rank, category) == Ok(ScaledRating(base, coefficient));
    IntravilanOtherBaseWellFormed(z, u);
    CorrectionCoefficientsOrdered(r, r);
    RatingOfTwo(base, coefficient);
  }

  lemma ExtravilanRated(rank: Option<string>, category: Option<string>)
    requires RateExtravilan(rank, category).Ok?
    ensures WellRated(RateExtravilan(rank, category).value)
  {
    var r, u := ParseRank(rank.value).value, ParseLandUse(category.value).value;
    var midpoint, coefficient := Midpoint(AsRange(ExtravilanBaseRate(u))), CorrectionCoefficient(r);
    assert RateExtravilan(rank, category) == Ok(ScaledRating(midpoint, coefficient));
    ExtravilanRangesWellFormed(u);
    CorrectionCoefficientsOrdered(r, r);
    RatingOfTwo(midpoint, coefficient);
  }

  /** Every rating is non-negative and its factors multiply out to it. */
  lemma RatingShape(scenario: string, zone: Option<string>, rank: Option<string>, category: Option<string>)
    requires LandRating(scenario, zone, rank, category).Ok?
    ensures WellRated(LandRating(scenario, zone, rank, category).value)
  {
    if scenario == "intravilan_construction" {
      IntravilanConstructionRated(zone, rank);
    } else if scenario == "intravilan_other_large" {
      IntravilanOtherRated(zone, rank, category);
    } else {
      ExtravilanRated(rank, category);
    }
  }

  lemma RatingOfTwo(a: real, b: real)
    requires 0.0 <= a && 0.0 <= b
    ensures WellRated(ScaledRating(a, b))
  {
    ProductOfTwo(a, b);
    MulMonotone(0.0, a, b);
  }

  /** Applying a scaled rating multiplies the area by the base rate and the
      coefficient, and lists the three as the breakdown. */
  lemma AppliedScaledRating(areaHa: real, baseRate: real, coefficient: real)
    ensures ApplyRating(areaHa, Ok(ScaledRating(baseRate, coefficient)))
      == Ok(ScaledTax(areaHa, baseRate, coefficient))
  {
    var g := ScaledRating(baseRate, coefficient);
    assert [areaHa] + g.rateFactors == [areaHa, baseRate, coefficient];
    assert ApplyRating(areaHa, Ok(g)).value == TaxResult(areaHa * (baseRate * coefficient), [areaHa, baseRate, coefficient]);
  }

  /** A scenario whose rating is a base rate scaled by a coefficient taxes
      the area in hectares times both, and shows the three factors. */
  lemma LandTaxOfScaledRating(input: LandInput, baseRate: real, coefficient: real)
    requires LandRating(input.scenario, input.cityZone, input.cityRank, input.landUseCategory)
      == Ok(ScaledRating(baseRate, coefficient))
    ensures CalculateLandTax(input)
      == Ok(ScaledTax(Hectares(input.areaM2), baseRate, coefficient))
  {
    LandTaxApplies(input);
    AppliedScaledRating(Hectares(input.areaM2), baseRate, coefficient);
  }

  /** The scenario key selects the rating. */
  lemma LandRatingDispatch(scenario: string, zone: Option<string>, rank: Option<string>, category: Option<string>)
    ensures scenario == "intravilan_other_large" ==> LandRating(scenario, zone, rank, category) == RateIntravilanOther(zone, rank, category)
    ensures scenario == "extravilan" ==> LandRating(scenario, zone, rank, category) == RateExtravilan(rank, category)
  {
  }

  /** The tax is the rating applied to the area in hectares. */
  lemma LandTaxApplies(input: LandInput)
    ensures CalculateLandTax(input)
      == ApplyRating(Hectares(input.areaM2), LandRating(input.scenario, input.cityZone, input.cityRank, input.landUseCategory))
  {
  }

  /** The breakdown of a successful calculation multiplies out to its tax. */
  lemma LandBreakdownMultipliesOut(input: LandInput)
    requires CalculateLandTax(input).Ok?
    ensures FactorsMultiplyToTax(CalculateLandTax(input).value)
  {
    var rating := LandRating(input.scenario, input.cityZone, input.cityRank, input.landUseCategory);
    RatingShape(input.scenario, input.cityZone, input.cityRank, input.landUseCategory);
    AppliedRatingMultipliesOut(Hectares(input.areaM2), rating.value);
  }

  lemma AppliedRatingMultipliesOut(areaHa: real, g: Rating)
    requires WellRated(g)
    ensures FactorsMultiplyToTax(ApplyRating(areaHa, Ok(g)).value)
  {
    var f := g.rateFactors;
    if |f| == 1 {
      assert [areaHa] + f == [areaHa, f[0]];
      ProductOfTwo(areaHa, f[0]);
      ProductOfOne(f[0]);
      assert f == [f[0]];
    } else {
      assert [areaHa] + f == [areaHa, f[0], f[1]];
      ProductOfThree(areaHa, f[0], f[1]);
      ProductOfTwo(f[0], f[1]);
      assert f == [f[0], f[1]];
    }
  }

  /** For a non-negative rating, the applied tax is non-negative for a
      non-negative area and grows with the area. */
  lemma AppliedRatingMonotone(areaHa: real, larger: real, g: Rating)
    requires 0.0 <= areaHa <= larger && 0.0 <= g.ratePerHa
    ensures 0.0 <= ApplyRating(areaHa, Ok(g)).value.tax <= ApplyRating(larger, Ok(g)).value.tax
  {
    MulMonotone(0.0, areaHa, g.ratePerHa);
    MulMonotone(areaHa, larger, g.ratePerHa);
  }

  /** A non-negative area never yields a negative tax, and a larger area in
      the same scenario never yields a smaller one. */
  lemma LandTaxMonotoneInArea(input: LandInput, larger: real)
    requires 0.0 <= input.areaM2 <= larger
    requires CalculateLandTax(input).Ok?
    ensures CalculateLandTax(input.(areaM2 := larger)).Ok?
    ensures 0.0 <= CalculateLandTax(input).value.tax <= CalculateLandTax(input.(areaM2 := larger)).value.tax
  {
    var rating := LandRating(input.scenario, input.cityZone, input.cityRank, input.landUseCategory);
    RatingShape(input.scenario, input.cityZone, input.cityRank, input.landUseCategory);
    MulMonotone(0.0, input.areaM2, 1.0 / 10000.0);
    MulMonotone(input.areaM2, larger, 1.0 / 10000.0);
    AppliedRatingMonotone(Hectares(input.areaM2), Hectares(larger), rating.value);
  }
}
