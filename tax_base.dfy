/** Values shared by every calculator of the tax rules engine: the error
    outcomes of the engine's `throw` sites, the result record, the zone and
    rank keys used by the coefficient tables, and small arithmetic helpers. */
module TaxBase {

  datatype Option<+T> = None | Some(value: T) {
    function GetOr(default: T): T {
      match this
      case Some(v) => v
      case None => default
    }
  }

  /** One constructor per kind of error the engine throws. */
  datatype TaxError =
    | NoVehicleRate                 // no rate row for the vehicle
    | InvalidEuroNorm               // the norm key is not one of the rate columns
    | InvalidBuildingType           // unknown building type key
    | InvalidZoneRank               // no coefficient / range for (zone, rank)
    | MissingFields(scenario: string) // a field the land scenario requires is absent
    | InvalidZoneOrLandUse          // no intravilan base rate for (zone, land use)
    | InvalidRank                   // no correction coefficient for the rank
    | InvalidLandUse                // no extravilan base rate for the land use
    | InvalidScenario               // unknown land scenario

  datatype Result<+T> = Ok(value: T) | Err(error: TaxError)

  /** The engine's `{ tax, breakdown }`. The breakdown text is represented by
      the multiplicative factors it displays, in the order it displays them. */
  datatype TaxResult = TaxResult(tax: real, factors: seq<real>)

  /** Product of the factors of a breakdown, multiplied left to right. */
  function Product(xs: seq<real>): real
  {
    if xs == [] then 1.0 else Product(xs[..|xs| - 1]) * xs[|xs| - 1]
  }

  /** Appending a factor multiplies the product by it. */
  lemma ProductSnoc(xs: seq<real>, x: real)
    ensures Product(xs + [x]) == Product(xs) * x
  {
    assert (xs + [x])[..|xs|] == xs;
  }

  /** The products of breakdowns of one to five factors, spelled out. */
  lemma ProductOfOne(a: real)
    ensures Product([a]) == a
  {
    ProductSnoc([], a);
    assert [] + [a] == [a];
  }

  lemma ProductOfTwo(a: real, b: real)
    ensures Product([a, b]) == a * b
  {
    ProductOfOne(a);
    ProductSnoc([a], b);
    assert [a] + [b] == [a, b];
  }

  lemma ProductOfThree(a: real, b: real, c: real)
    ensures Product([a, b, c]) == a * b * c
  {
    ProductOfTwo(a, b);
    ProductSnoc([a, b], c);
    assert [a, b] + [c] == [a, b, c];
  }

  lemma ProductOfFour(a: real, b: real, c: real, d: real)
    ensures Product([a, b, c, d]) == a * b * c * d
  {
    ProductOfThree(a, b, c);
    ProductSnoc([a, b, c], d);
    assert [a, b, c] + [d] == [a, b, c, d];
  }

  lemma ProductOfFive(a: real, b: real, c: real, d: real, e: real)
    ensures Product([a, b, c, d, e]) == a * b * c * d * e
  {
    ProductOfFour(a, b, c, d);
    ProductSnoc([a, b, c, d], e);
    assert [a, b, c, d] + [e] == [a, b, c, d, e];
  }

  /** The breakdown of a result multiplies out to its tax. */
  predicate FactorsMultiplyToTax(r: TaxResult)
  {
    Product(r.factors) == r.tax
  }

  /** `Math.min(Math.max(x, lo), hi)` */
  function Clamp(x: real, lo: real, hi: real): (r: real)
    requires lo <= hi
    ensures lo <= r <= hi
    ensures x < lo ==> r == lo
    ensures hi < x ==> r == hi
    ensures lo <= x <= hi ==> r == x
  {
    if x < lo then lo else if hi < x then hi else x
  }

  /** `Math.ceil(x)`: the least integer not below x. */
  function Ceil(x: real): (n: int)
    ensures x <= n as real < x + 1.0
  {
    -((-x).Floor)
  }

  /** An optional string passes JavaScript's truthiness test: present and
      non-empty. `!value` is its negation. */
  predicate Present(s: Option<string>)
  {
    s.Some? && s.value != ""
  }

  /** Intra-locality valuation zone. */
  datatype Zone = ZoneA | ZoneB | ZoneC | ZoneD

  /** Locality rank, 0 (the capital) being the most important. */
  datatype Rank = Rank0 | RankI | RankII | RankIII | RankIV | RankV

  function ZoneKey(z: Zone): string
  {
    match z
    case ZoneA => "A"
    case ZoneB => "B"
    case ZoneC => "C"
    case ZoneD => "D"
  }

  function RankKey(r: Rank): string
  {
    match r
    case Rank0 => "0"
    case RankI => "I"
    case RankII => "II"
    case RankIII => "III"
    case RankIV => "IV"
    case RankV => "V"
  }

  /** Looking up a zone key in a table keyed by "A".."D". */
  function ParseZone(s: string): (z: Option<Zone>)
    ensures z.Some? ==> ZoneKey(z.value) == s
    ensures z.None? <==> s !in {"A", "B", "C", "D"}
  {
    if s == "A" then Some(ZoneA)
    else if s == "B" then Some(ZoneB)
    else if s == "C" then Some(ZoneC)
    else if s == "D" then Some(ZoneD)
    else None
  }

  /** Looking up a rank key in a table keyed by "0", "I".."V". */
  function ParseRank(s: string): (r: Option<Rank>)
    ensures r.Some? ==> RankKey(r.value) == s
    ensures r.None? <==> s !in {"0", "I", "II", "III", "IV", "V"}
  {
    if s == "0" then Some(Rank0)
    else if s == "I" then Some(RankI)
    else if s == "II" then Some(RankII)
    else if s == "III" then Some(RankIII)
    else if s == "IV" then Some(RankIV)
    else if s == "V" then Some(RankV)
    else None
  }

  lemma ZoneKeyRoundTrip(z: Zone)
    ensures ParseZone(ZoneKey(z)) == Some(z)
  {
  }

  lemma RankKeyRoundTrip(r: Rank)
    ensures ParseRank(RankKey(r)) == Some(r)
  {
  }

  /** Position of a zone, A first. */
  function ZoneIndex(z: Zone): nat
  {
    match z
    case ZoneA => 0
    case ZoneB => 1
    case ZoneC => 2
    case ZoneD => 3
  }

  /** Position of a rank, 0 first. */
  function RankIndex(r: Rank): nat
  {
    match r
    case Rank0 => 0
    case RankI => 1
    case RankII => 2
    case RankIII => 3
    case RankIV => 4
    case RankV => 5
  }

  /** Multiplying by a non-negative factor keeps an order. */
  lemma MulMonotone(x: real, y: real, k: real)
    requires x <= y && 0.0 <= k
    ensures x * k <= y * k
  {
  }
}
