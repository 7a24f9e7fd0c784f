/** Vehicle tax: a flat amount for electric vehicles, otherwise a rate per
    started 200 cm³ taken from a capacity-bracket row and a Euro-norm column,
    with an optional local discount of at most 30% for hybrids emitting at
    most 50 g CO2/km. */
module VehicleTax {
  import opened TaxBase

  /** One row of the rate table: a category tag, an inclusive capacity
      interval in cm³ and the rate per 200 cm³ for each norm column. */
  datatype VehicleRate = VehicleRate(
    kind: string,
    capacityMin: real,
    capacityMax: real,
    euro0to3: real,
    euro4: real,
    euro5: real,
    euro6: real,
    hybridOver50: real)

  /** The rate table, in the order the car search scans it. Row 1 has an
      empty interval (min 1601 above max 1600); only the motorcycle branch
      reaches it, by index. */
  const VehicleTaxRates: seq<VehicleRate> := [
    VehicleRate("car_motorcycle_small", 0.0, 1600.0, 19.5, 18.8, 17.6, 16.5, 16.2),
    VehicleRate("motorcycle_large", 1601.0, 1600.0, 22.1, 21.3, 19.9, 18.7, 18.4),
    VehicleRate("car_1601_2000", 1601.0, 2000.0, 29.7, 28.5, 26.7, 25.1, 24.6),
    VehicleRate("car_2001_2600", 2001.0, 2600.0, 92.2, 88.6, 82.8, 77.8, 76.3),
    VehicleRate("car_2601_3000", 2601.0, 3000.0, 182.9, 172.8, 154.1, 151.2, 149.8),
    VehicleRate("car_over_3001", 3001.0, 999999.0, 319.0, 297.3, 294.4, 290.0, 275.5),
    VehicleRate("bus", 0.0, 999999.0, 31.2, 30.0, 28.1, 26.4, 25.9),
    VehicleRate("other_vehicle", 0.0, 999999.0, 39.0, 37.5, 35.1, 33.0, 32.4)
  ]

  /** The calculator's input. The type and norm are the keys the caller
      passes; the discount is optional. */
  datatype VehicleInput = VehicleInput(
    vehicleType: string,
    capacity: real,
    euro: string,
    localHybridDiscount: Option<real>)

  /** Which branch of row selection a vehicle type key takes: every key other
      than "motorcycle", "bus" and "other" is searched as a car. */
  datatype VehicleCategory = Motorcycle | Bus | OtherVehicle | Car

  function CategoryOf(vehicleType: string): (c: VehicleCategory)
    ensures c == Car <==> vehicleType !in {"motorcycle", "bus", "other"}
  {
    if vehicleType == "motorcycle" then Motorcycle
    else if vehicleType == "bus" then Bus
    else if vehicleType == "other" then OtherVehicle
    else Car
  }

  /** The rate columns of a row. */
  datatype RateColumn = Euro0to3 | Euro4 | Euro5 | Euro6 | HybridOver50

  /** The norm switch: both hybrid norms read the hybridOver50 column; any
      other key (including "electric", which never reaches the switch) has no
      column. */
  function ColumnOf(euro: string): (c: Option<RateColumn>)
    ensures c == Some(HybridOver50) <==> euro in {"hybrid_le_50", "hybrid_gt_50"}
    ensures c == None <==> euro !in {"euro0_3", "euro4", "euro5", "euro6", "hybrid_le_50", "hybrid_gt_50"}
  {
    if euro == "euro0_3" then Some(Euro0to3)
    else if euro == "euro4" then Some(Euro4)
    else if euro == "euro5" then Some(Euro5)
    else if euro == "euro6" then Some(Euro6)
    else if euro == "hybrid_gt_50" || euro == "hybrid_le_50" then Some(HybridOver50)
    else None
  }

  function RateIn(row: VehicleRate, column: RateColumn): real
  {
    match column
    case Euro0to3 => row.euro0to3
    case Euro4 => row.euro4
    case Euro5 => row.euro5
    case Euro6 => row.euro6
    case HybridOver50 => row.hybridOver50
  }

  /** Each plain norm reads its own column of the row, and both hybrid norms
      read the hybridOver50 column. */
  lemma NormReadsOwnColumn(row: VehicleRate)
    ensures RateIn(row, ColumnOf("euro0_3").value) == row.euro0to3
    ensures RateIn(row, ColumnOf("euro4").value) == row.euro4
    ensures RateIn(row, ColumnOf("euro5").value) == row.euro5
    ensures RateIn(row, ColumnOf("euro6").value) == row.euro6
    ensures RateIn(row, ColumnOf("hybrid_le_50").value) == row.hybridOver50
    ensures RateIn(row, ColumnOf("hybrid_gt_50").value) == row.hybridOver50
  {
  }

  predicate StartsWith(s: string, prefix: string)
  {
    |prefix| <= |s| && s[..|prefix|] == prefix
  }

  /** The predicate the car search applies to each row. */
  predicate CarRowMatches(row: VehicleRate, capacity: real)
  {
    StartsWith(row.kind, "car_") && row.capacityMin <= capacity <= row.capacityMax
  }

  /** First-match search over `rows[i..]`: the index of the first car row
      whose interval contains the capacity, if any. */
  function FindCarRate(rows: seq<VehicleRate>, capacity: real, i: nat): (r: Option<nat>)
    requires i <= |rows|
    ensures r.Some? ==> i <= r.value < |rows| && CarRowMatches(rows[r.value], capacity)
    ensures r.Some? ==> forall j :: i <= j < r.value ==> !CarRowMatches(rows[j], capacity)
    ensures r.None? ==> forall j :: i <= j < |rows| ==> !CarRowMatches(rows[j], capacity)
    decreases |rows| - i
  {
    if i == |rows| then None
    else if CarRowMatches(rows[i], capacity) then Some(i)
    else FindCarRate(rows, capacity, i + 1)
  }

  /** Row selection: motorcycles by an explicit split at 1600 cm³, buses and
      other vehicles by their own rows, cars by the first-match search. */
  function SelectRow(category: VehicleCategory, capacity: real): (r: Option<nat>)
    ensures r.Some? ==> r.value < |VehicleTaxRates|
  {
    match category
    case Motorcycle => if capacity <= 1600.0 then Some(0) else Some(1)
    case Bus => Some(6)
    case OtherVehicle => Some(7)
    case Car => FindCarRate(VehicleTaxRates, capacity, 0)
  }

  /** Started units of 200 cm³: `Math.ceil(capacity / 200)`. */
  function Units(capacity: real): int
  {
    Ceil(capacity / 200.0)
  }

  /** The effective local hybrid discount: absent counts as 0, and the value
      is clamped to [0, 0.3]. */
  function HybridDiscount(d: Option<real>): (r: real)
    ensures 0.0 <= r <= 0.3
    ensures d.None? ==> r == 0.0
    ensures d.Some? && d.value < 0.0 ==> r == 0.0
    ensures d.Some? && 0.0 <= d.value <= 0.3 ==> r == d.value
    ensures d.Some? && 0.3 < d.value ==> r == 0.3
  {
    Clamp(d.GetOr(0.0), 0.0, 0.3)
  }

  /** The rated part of the calculation, once a row and a column are known:
      started units times the rate, then, for a low-emission hybrid with a
      positive clamped discount, times (1 - discount). */
  function RatedTax(ratePerUnit: real, capacity: real, lowEmissionHybrid: bool, discount: Option<real>): TaxResult
  {
    var units := Units(capacity);
    var tax := units as real * ratePerUnit;
    var d := HybridDiscount(discount);
    if lowEmissionHybrid && d > 0.0 then
      TaxResult(tax * (1.0 - d), [units as real, ratePerUnit, 1.0 - d])
    else
      TaxResult(tax, [units as real, ratePerUnit])
  }

  /** `calculateVehicleTax`. */
  function CalculateVehicleTax(input: VehicleInput): Result<TaxResult>
  {
    if input.euro == "electric" then Ok(TaxResult(40.0, [40.0]))
    else
      match SelectRow(CategoryOf(input.vehicleType), input.capacity)
      case None => Err(NoVehicleRate)
      case Some(i) =>
        match ColumnOf(input.euro)
        case None => Err(InvalidEuroNorm)
        case Some(column) =>
          Ok(RatedTax(RateIn(VehicleTaxRates[i], column), input.capacity,
                      input.euro == "hybrid_le_50", input.localHybridDiscount))
  }

  /** The tax before any hybrid discount: started units times the rate. */
  function BaseVehicleTax(row: nat, column: RateColumn, capacity: real): real
    requires row < |VehicleTaxRates|
  {
    Units(capacity) as real * RateIn(VehicleTaxRates[row], column)
  }

  // ---------------------------------------------------------------------
  // Reference definitions

  /** The car brackets as published, written out independently of the
      table scan. */
  function CarBracket(capacity: real): Option<nat>
  {
    if 0.0 <= capacity <= 1600.0 then Some(0)
    else if 1601.0 <= capacity <= 2000.0 then Some(2)
    else if 2001.0 <= capacity <= 2600.0 then Some(3)
    else if 2601.0 <= capacity <= 3000.0 then Some(4)
    else if 3001.0 <= capacity <= 999999.0 then Some(5)
    else None
  }

  // ---------------------------------------------------------------------
  // Lemmas

  lemma CarTagsInTable()
    ensures StartsWith(VehicleTaxRates[0].kind, "car_")
    ensures !StartsWith(VehicleTaxRates[1].kind, "car_")
    ensures StartsWith(VehicleTaxRates[2].kind, "car_")
    ensures StartsWith(VehicleTaxRates[3].kind, "car_")
    ensures StartsWith(VehicleTaxRates[4].kind, "car_")
    ensures StartsWith(VehicleTaxRates[5].kind, "car_")
    ensures !StartsWith(VehicleTaxRates[6].kind, "car_")
    ensures !StartsWith(VehicleTaxRates[7].kind, "car_")
  {
    assert VehicleTaxRates[0].kind[..4] == "car_";
    assert VehicleTaxRates[1].kind[..4] != "car_" by { assert VehicleTaxRates[1].kind[0] == 'm'; }
    assert VehicleTaxRates[2].kind[..4] == "car_";
    assert VehicleTaxRates[3].kind[..4] == "car_";
    assert VehicleTaxRates[4].kind[..4] == "car_";
    assert VehicleTaxRates[5].kind[..4] == "car_";
    assert VehicleTaxRates[6].kind[..3] == "bus";
    assert VehicleTaxRates[7].kind[..4] != "car_" by { assert VehicleTaxRates[7].kind[0] == 'o'; }
  }

  /** The first-match scan over the table selects exactly the published car
      bracket: rows 0, 2, 3, 4, 5 for [0,1600], [1601,2000], [2001,2600],
      [2601,3000], [3001,999999], and no row otherwise (a negative capacity,
      one strictly between 1600 and 1601, or one above 999999). */
  lemma CarRowIsBracket(capacity: real)
    ensures SelectRow(Car, capacity) == CarBracket(capacity)
  {
    CarTagsInTable();
    var r := FindCarRate(VehicleTaxRates, capacity, 0);
    var b := CarBracket(capacity);
    if b.Some? {
      assert CarRowMatches(VehicleTaxRates[b.value], capacity);
      assert forall j :: 0 <= j < b.value ==> !CarRowMatches(VehicleTaxRates[j], capacity);
    } else {
      assert forall j :: 0 <= j < |VehicleTaxRates| ==> !CarRowMatches(VehicleTaxRates[j], capacity);
    }
  }

  /** Row selection as a whole: motorcycles split at 1600 cm³ between rows
      0 and 1, buses always use row 6, other vehicles row 7, and every other
      type key the published car bracket. */
  lemma RowSelection(vehicleType: string, capacity: real)
    ensures SelectRow(CategoryOf(vehicleType), capacity) ==
      if vehicleType == "motorcycle" then (if capacity <= 1600.0 then Some(0) else Some(1))
      else if vehicleType == "bus" then Some(6)
      else if vehicleType == "other" then Some(7)
      else CarBracket(capacity)
  {
    if CategoryOf(vehicleType) == Car {
      CarRowIsBracket(capacity);
    }
  }

  /** Adjacent car brackets meet: the upper bound of each bracket and the
      next whole capacity select different rows. */
  lemma CarBracketBoundaries()
    ensures SelectRow(Car, 1600.0) == Some(0) && SelectRow(Car, 1601.0) == Some(2)
    ensures SelectRow(Car, 2000.0) == Some(2) && SelectRow(Car, 2001.0) == Some(3)
    ensures SelectRow(Car, 2600.0) == Some(3) && SelectRow(Car, 2601.0) == Some(4)
    ensures SelectRow(Car, 3000.0) == Some(4) && SelectRow(Car, 3001.0) == Some(5)
    ensures SelectRow(Car, 999999.0) == Some(5) && SelectRow(Car, 1000000.0) == None
  {
    CarRowIsBracket(1600.0);
    CarRowIsBracket(1601.0);
    CarRowIsBracket(2000.0);
    CarRowIsBracket(2001.0);
    CarRowIsBracket(2600.0);
    CarRowIsBracket(2601.0);
    CarRowIsBracket(3000.0);
    CarRowIsBracket(3001.0);
    CarRowIsBracket(999999.0);
    CarRowIsBracket(1000000.0);
  }

  /** The motorcycle-large row has an empty interval, so no capacity lies in
      it and the car search never selects it; motorcycles above 1600 cm³
      reach it only through their explicit branch. */
  lemma MotorcycleLargeRowOnlyByBranch(capacity: real)
    ensures VehicleTaxRates[1].capacityMax < VehicleTaxRates[1].capacityMin
    ensures !(VehicleTaxRates[1].capacityMin <= capacity <= VehicleTaxRates[1].capacityMax)
    ensures SelectRow(Car, capacity) != Some(1)
    ensures SelectRow(Motorcycle, capacity) == Some(1) <==> 1600.0 < capacity
  {
    CarRowIsBracket(capacity);
  }

  /** A fractional car capacity strictly between 1600 and 1601 cm³ falls
      between the first two car brackets and is rejected. */
  lemma CarCapacityGap(capacity: real, euro: string, discount: Option<real>)
    requires 1600.0 < capacity < 1601.0
    requires euro != "electric"
    ensures CalculateVehicleTax(VehicleInput("car", capacity, euro, discount)) == Err(NoVehicleRate)
  {
    CarRowIsBracket(capacity);
  }

  /** Electric vehicles pay the flat 40 whatever their type, capacity and
      discount. */
  lemma ElectricIsFlat(vehicleType: string, capacity: real, discount: Option<real>)
    ensures CalculateVehicleTax(VehicleInput(vehicleType, capacity, "electric", discount))
      == Ok(TaxResult(40.0, [40.0]))
  {
  }

  /** The error exits of a non-electric vehicle: no row is checked first,
      then the norm. */
  lemma VehicleTaxErrors(input: VehicleInput)
    requires input.euro != "electric"
    ensures CalculateVehicleTax(input) == Err(NoVehicleRate)
      <==> SelectRow(CategoryOf(input.vehicleType), input.capacity).None?
    ensures CalculateVehicleTax(input) == Err(InvalidEuroNorm)
      <==> SelectRow(CategoryOf(input.vehicleType), input.capacity).Some? && ColumnOf(input.euro).None?
    ensures CalculateVehicleTax(input).Ok?
      <==> SelectRow(CategoryOf(input.vehicleType), input.capacity).Some? && ColumnOf(input.euro).Some?
  {
  }

  /** Without the hybrid discount, the tax is the started 200 cm³ units of
      the capacity times the rate of the selected row and column. */
  lemma VehicleTaxFormula(input: VehicleInput, row: nat, column: RateColumn)
    requires input.euro != "electric" && input.euro != "hybrid_le_50"
    requires SelectRow(CategoryOf(input.vehicleType), input.capacity) == Some(row)
    requires ColumnOf(input.euro) == Some(column)
    ensures CalculateVehicleTax(input).Ok?
    ensures CalculateVehicleTax(input).value.tax == BaseVehicleTax(row, column, input.capacity)
  {
  }

  /** `Units` counts started 200 cm³ blocks: the capacity exceeds one block
      fewer and fits in that many. */
  lemma UnitsBounds(capacity: real)
    ensures (Units(capacity) - 1) as real * 200.0 < capacity <= Units(capacity) as real * 200.0
  {
    var n := Units(capacity);
    assert capacity / 200.0 <= n as real < capacity / 200.0 + 1.0;
  }

  /** A capacity of exactly 200 cm³ is one unit; any fraction above it starts
      a second one. */
  lemma UnitsRoundUp()
    ensures Units(200.0) == 1
    ensures Units(201.0) == 2
    ensures Units(1.0) == 1
    ensures Units(1800.0) == 9
  {
    UnitsBounds(200.0);
    UnitsBounds(201.0);
    UnitsBounds(1.0);
    UnitsBounds(1800.0);
  }

  /** An 1800 cm³ hybrid car above 50 g/km: 9 units at 24.6 lei. */
  lemma HybridCarExample()
    ensures CalculateVehicleTax(VehicleInput("car", 1800.0, "hybrid_gt_50", None))
      == Ok(TaxResult(221.4, [9.0, 24.6]))
  {
    CarRowIsBracket(1800.0);
    UnitsRoundUp();
  }

  /** The same car as a low-emission hybrid with a local discount of 10%
      pays 90% of that: 9 units at 24.6 lei times 0.9. */
  lemma HybridDiscountExample()
    ensures CalculateVehicleTax(VehicleInput("car", 1800.0, "hybrid_le_50", Some(0.1)))
      == Ok(TaxResult(199.26, [9.0, 24.6, 0.9]))
  {
    CarRowIsBracket(1800.0);
    UnitsRoundUp();
  }

  /** Both hybrid norms read the same column; the low-emission one then
      multiplies by (1 - clamped discount), so it succeeds exactly when the
      other does and its tax is the other's scaled by that factor. */
  lemma HybridLe50ScalesHybridGt50(input: VehicleInput)
    requires input.euro == "hybrid_le_50"
    ensures ColumnOf("hybrid_le_50") == ColumnOf("hybrid_gt_50") == Some(HybridOver50)
    ensures CalculateVehicleTax(input).Ok? <==> CalculateVehicleTax(input.(euro := "hybrid_gt_50")).Ok?
    ensures CalculateVehicleTax(input).Ok? ==>
      CalculateVehicleTax(input).value.tax ==
        CalculateVehicleTax(input.(euro := "hybrid_gt_50")).value.tax * (1.0 - HybridDiscount(input.localHybridDiscount))
  {
    var other := input.(euro := "hybrid_gt_50");
    var row := SelectRow(CategoryOf(input.vehicleType), input.capacity);
    if row.Some? {
      var rate := RateIn(VehicleTaxRates[row.value], HybridOver50);
      assert CalculateVehicleTax(input) == Ok(RatedTax(rate, input.capacity, true, input.localHybridDiscount));
      assert CalculateVehicleTax(other) == Ok(RatedTax(rate, input.capacity, false, input.localHybridDiscount));
      RatedTaxHybridScales(rate, input.capacity, input.localHybridDiscount);
    }
  }

  /** The low-emission hybrid amount is the plain amount reduced by the
      clamped discount. */
  lemma RatedTaxHybridScales(ratePerUnit: real, capacity: real, discount: Option<real>)
    ensures RatedTax(ratePerUnit, capacity, true, discount).tax
      == RatedTax(ratePerUnit, capacity, false, discount).tax * (1.0 - HybridDiscount(discount))
  {
    var plain := Units(capacity) as real * ratePerUnit;
    var d := HybridDiscount(discount);
    assert RatedTax(ratePerUnit, capacity, false, discount).tax == plain;
    if d > 0.0 {
      assert RatedTax(ratePerUnit, capacity, true, discount).tax == plain * (1.0 - d);
    } else {
      assert d == 0.0 && RatedTax(ratePerUnit, capacity, true, discount).tax == plain;
      assert plain * (1.0 - d) == plain;
    }
  }

  /** The discounted rated tax lies between 70% and 100% of the undiscounted
      one when the latter is non-negative. */
  lemma RatedTaxDiscountBounds(ratePerUnit: real, capacity: real, discount: Option<real>)
    requires 0.0 <= ratePerUnit && 0.0 <= capacity
    ensures 0.7 * RatedTax(ratePerUnit, capacity, false, discount).tax
      <= RatedTax(ratePerUnit, capacity, true, discount).tax
      <= RatedTax(ratePerUnit, capacity, false, discount).tax
  {
    RatedTaxNonNegative(ratePerUnit, capacity, false, discount);
    RatedTaxHybridScales(ratePerUnit, capacity, discount);
    ReducedBetween(RatedTax(ratePerUnit, capacity, false, discount).tax, HybridDiscount(discount));
  }

  /** Taking off at most 30% leaves between 70% and 100% of a non-negative
      amount. */
  lemma ReducedBetween(t: real, d: real)
    requires 0.0 <= t && 0.0 <= d <= 0.3
    ensures 0.7 * t <= t * (1.0 - d) <= t
  {
    MulMonotone(0.7, 1.0 - d, t);
    MulMonotone(1.0 - d, 1.0, t);
    assert (1.0 - d) * t == t * (1.0 - d);
  }

  /** For a non-negative capacity the discounted tax lies between 70% and
      100% of the undiscounted hybrid tax. */
  lemma HybridLe50Bounds(input: VehicleInput)
    requires input.euro == "hybrid_le_50" && 0.0 <= input.capacity
    requires CalculateVehicleTax(input).Ok?
    ensures 0.7 * CalculateVehicleTax(input.(euro := "hybrid_gt_50")).value.tax
      <= CalculateVehicleTax(input).value.tax
      <= CalculateVehicleTax(input.(euro := "hybrid_gt_50")).value.tax
  {
    var i := SelectRow(CategoryOf(input.vehicleType), input.capacity).value;
    RatesPositive(i);
    RatedTaxDiscountBounds(VehicleTaxRates[i].hybridOver50, input.capacity, input.localHybridDiscount);
  }

  /** The discount is clamped: any value of 0.3 or more gives the tax of
      0.3, and any value of 0 or less (or none) gives the undiscounted tax. */
  lemma HybridDiscountClamped(vehicleType: string, capacity: real, d: real)
    ensures 0.3 <= d ==>
      CalculateVehicleTax(VehicleInput(vehicleType, capacity, "hybrid_le_50", Some(d)))
      == CalculateVehicleTax(VehicleInput(vehicleType, capacity, "hybrid_le_50", Some(0.3)))
    ensures d <= 0.0 ==>
      CalculateVehicleTax(VehicleInput(vehicleType, capacity, "hybrid_le_50", Some(d)))
      == CalculateVehicleTax(VehicleInput(vehicleType, capacity, "hybrid_le_50", None))
  {
    var row := SelectRow(CategoryOf(vehicleType), capacity);
    if row.Some? {
      var rate := RateIn(VehicleTaxRates[row.value], HybridOver50);
      if 0.3 <= d {
        RatedTaxSameClampedDiscount(rate, capacity, Some(d), Some(0.3));
      }
      if d <= 0.0 {
        RatedTaxSameClampedDiscount(rate, capacity, Some(d), None);
      }
    }
  }

  /** The rated tax depends on the discount only through its clamped value. */
  lemma RatedTaxSameClampedDiscount(ratePerUnit: real, capacity: real, d1: Option<real>, d2: Option<real>)
    requires HybridDiscount(d1) == HybridDiscount(d2)
    ensures RatedTax(ratePerUnit, capacity, true, d1) == RatedTax(ratePerUnit, capacity, true, d2)
  {
  }

  /** The local discount has no effect on any norm other than hybrid_le_50. */
  lemma DiscountOnlyForHybridLe50(input: VehicleInput)
    requires input.euro != "hybrid_le_50"
    ensures CalculateVehicleTax(input) == CalculateVehicleTax(input.(localHybridDiscount := None))
  {
  }

  /** Every rate in the table is positive. */
  lemma RatesPositive(i: nat)
    requires i < |VehicleTaxRates|
    ensures forall c: RateColumn :: 0.0 < RateIn(VehicleTaxRates[i], c)
  {
  }

  /** The rated part is non-negative for a non-negative rate and capacity. */
  lemma RatedTaxNonNegative(ratePerUnit: real, capacity: real, lowEmissionHybrid: bool, discount: Option<real>)
    requires 0.0 <= ratePerUnit && 0.0 <= capacity
    ensures 0.0 <= RatedTax(ratePerUnit, capacity, lowEmissionHybrid, discount).tax
  {
    UnitsBounds(capacity);
    var units := Units(capacity);
    assert 0 <= units;
    MulMonotone(0.0, units as real, ratePerUnit);
    var d := HybridDiscount(discount);
    MulMonotone(0.0, units as real * ratePerUnit, 1.0 - d);
  }

  /** A non-negative capacity never yields a negative tax. */
  lemma VehicleTaxNonNegative(input: VehicleInput)
    requires 0.0 <= input.capacity
    requires CalculateVehicleTax(input).Ok?
    ensures 0.0 <= CalculateVehicleTax(input).value.tax
  {
    if input.euro != "electric" {
      var i := SelectRow(CategoryOf(input.vehicleType), input.capacity).value;
      var column := ColumnOf(input.euro).value;
      RatesPositive(i);
      RatedTaxNonNegative(RateIn(VehicleTaxRates[i], column), input.capacity,
                          input.euro == "hybrid_le_50", input.localHybridDiscount);
    }
  }

  /** The rated part's breakdown multiplies out to its tax. */
  lemma RatedTaxMultipliesOut(ratePerUnit: real, capacity: real, lowEmissionHybrid: bool, discount: Option<real>)
    ensures FactorsMultiplyToTax(RatedTax(ratePerUnit, capacity, lowEmissionHybrid, discount))
  {
    ProductOfTwo(Units(capacity) as real, ratePerUnit);
    ProductOfThree(Units(capacity) as real, ratePerUnit, 1.0 - HybridDiscount(discount));
  }

  /** The breakdown factors multiply out to the tax. */
  lemma VehicleBreakdownMultipliesOut(input: VehicleInput)
    requires CalculateVehicleTax(input).Ok?
    ensures FactorsMultiplyToTax(CalculateVehicleTax(input).value)
  {
    if input.euro == "electric" {
      ProductOfOne(40.0);
    } else {
      var i := SelectRow(CategoryOf(input.vehicleType), input.capacity).value;
      var column := ColumnOf(input.euro).value;
      RatedTaxMultipliesOut(RateIn(VehicleTaxRates[i], column), input.capacity,
                            input.euro == "hybrid_le_50", input.localHybridDiscount);
    }
  }
}
