# Romanian local tax calculator — Dafny model

This project models the calculation core of a calculator for Romanian local
taxes for 2026: the tax on vehicles, on buildings and on land, the 10%
reduction for payment by 31 March 2026, and the option lists the forms
offer. The calculator is a set of pure functions over rate tables; the model
keeps that form: datatypes for the tables and inputs, functions for the
calculations, and lemmas for what the calculations promise.

Modules:

- `TaxBase` (`tax_base.dfy`): `Option`, the error kinds the calculator
  throws as a `Result`, the tax result, clamping and rounding up, the
  JavaScript truthiness test for optional strings, and the city zones and
  ranks shared by the building and land tables.
- `VehicleTax` (`vehicle_tax.dfy`): the vehicle rate table, row selection by
  vehicle type and capacity, the Euro-norm column, rounding up to started
  200 cm³ units, and the local discount for low-emission hybrids.
- `BuildingTax` (`building_tax.dfy`): building rates per type, the
  zone/rank coefficients, the usage multiplier for basement,
  semi-basement and attic rooms, and the local
  rate clamped to 0.08%–0.2%.
- `LandTax` (`land_tax.dfy`): the three land scenarios, their required
  fields, their tables and their formulas.
- `Enumerations` (`enumerations.dfy`): the option lists of the forms and
  how they line up with the keys the calculations accept.
- `CivilTime` (`civil_time.dfy`): calendar dates to instants, used to
  derive the deadlines from their calendar form.
- `EarlyPayment` (`early_payment.dfy`): the discount split and the
  eligibility test against the local clock.
- `DateUtils` (`date_utils.dfy`): discount availability and the discount
  rate against the Romanian deadline.
- `DiscountDeadlines` (`discount_deadlines.dfy`): how the two deadline
  tests and the discount split relate.

Modelling choices:

- Inputs keep the string keys the calculator receives (vehicle type, Euro
  norm, building type, zone, rank, scenario, land-use category), so every
  error the calculator throws is reachable; the keys are parsed into
  enumerations and each table is a function of those.
- A thrown error is an `Err` carrying the kind of error; a successful
  calculation is an `Ok` with the tax and the list of factors its
  breakdown text multiplies together.
- `!field` on an optional string is true, so the field counts as missing,
  for an absent and for an empty string; `x || 0` and `x || "none"` are modelled the same way.
- Amounts are exact `real`s.
- The clock is an instant in milliseconds since the Unix epoch passed as a
  parameter; a local-time deadline also takes the local clock's offset from
  UTC as a parameter.

## Model

| member | source | states |
|---|---|---|
| TaxBase.ParseZone | client/src/lib/taxCalculations.ts:184-189 | a zone key is accepted exactly when it is one of A–D, and the accepted zone prints back as the key |
| TaxBase.ParseRank | client/src/lib/taxCalculations.ts:184-189 | a rank key is accepted exactly when it is one of 0, I–V, and the accepted rank prints back as the key |
| TaxBase.Clamp | client/src/lib/taxCalculations.ts:382 | `min(max(x, lo), hi)` lies in [lo, hi], is lo below it, hi above it and x inside it |
| TaxBase.Ceil | client/src/lib/taxCalculations.ts:377 | `Math.ceil`: the least integer not below x |
| TaxBase.ProductOfThree | client/src/lib/taxCalculations.ts:385 | a breakdown of three factors multiplies out left to right |
| TaxBase.ProductOfFive | client/src/lib/taxCalculations.ts:425-431 | a breakdown of five factors multiplies out left to right |
| VehicleTax.CategoryOf | client/src/lib/taxCalculations.ts:326-338 | any vehicle type other than motorcycle, bus and other is searched as a car |
| VehicleTax.ColumnOf | client/src/lib/taxCalculations.ts:353-374 | both hybrid norms read the hybridOver50 column; exactly the keys outside the switch have no column |
| VehicleTax.NormReadsOwnColumn | client/src/lib/taxCalculations.ts:354-371 | euro0_3, euro4, euro5 and euro6 each read their own column of the row, and both hybrid norms read hybridOver50 |
| VehicleTax.FindCarRate | client/src/lib/taxCalculations.ts:339-344 | the search returns the first row from the start index tagged car_ whose inclusive interval holds the capacity, and none when no later row does |
| VehicleTax.CarTagsInTable | client/src/lib/taxCalculations.ts:64-153 | rows 0 and 2–5 are tagged car_, rows 1, 6 and 7 are not |
| VehicleTax.CarRowIsBracket | client/src/lib/taxCalculations.ts:337-345 | the car search agrees with the bracket reference: ≤1600, 1601–2000, 2001–2600, 2601–3000, 3001–999999, else none |
| VehicleTax.RowSelection | client/src/lib/taxCalculations.ts:326-345 | motorcycles take row 0 up to 1600 cm³ and row 1 above, buses row 6, other vehicles row 7, cars their bracket |
| VehicleTax.CarBracketBoundaries | client/src/lib/taxCalculations.ts:64-153 | the bracket ends select the neighbouring rows at 1600/1601, 2000/2001, 2600/2601, 3000/3001, and nothing above 999999 |
| VehicleTax.MotorcycleLargeRowOnlyByBranch | client/src/lib/taxCalculations.ts:77-86 | row 1 has an empty interval, so the car search never selects it, and motorcycles reach it exactly above 1600 cm³ |
| VehicleTax.CarCapacityGap | client/src/lib/taxCalculations.ts:339-349 | a car capacity strictly between 1600 and 1601 finds no row and is rejected |
| VehicleTax.ElectricIsFlat | client/src/lib/taxCalculations.ts:314-319 | an electric vehicle pays 40 whatever its type, capacity and discount |
| VehicleTax.VehicleTaxErrors | client/src/lib/taxCalculations.ts:347-374 | a missing row is rejected first, then an unknown norm, and the calculation succeeds exactly when both are known |
| VehicleTax.VehicleTaxFormula | client/src/lib/taxCalculations.ts:376-378 | apart from hybrid_le_50 the tax is the started 200 cm³ units times the row's rate for the norm |
| VehicleTax.UnitsBounds | client/src/lib/taxCalculations.ts:377 | the unit count is the number of started 200 cm³ blocks |
| VehicleTax.UnitsRoundUp | client/src/lib/taxCalculations.ts:376-377 | 200 cm³ is one unit, 201 cm³ two, 1 cm³ one, 1800 cm³ nine |
| VehicleTax.HybridCarExample | client/src/lib/taxCalculations.ts:366-378 | an 1800 cm³ car, hybrid above 50 g/km, pays 9 × 24.6 = 221.4 |
| VehicleTax.HybridDiscountExample | client/src/lib/taxCalculations.ts:381-387 | an 1800 cm³ low-emission hybrid car with a 10% local discount pays 221.4 × 0.9 = 199.26, shown as 9 × 24.6 × 0.9 |
| VehicleTax.HybridDiscount | client/src/lib/taxCalculations.ts:382 | an absent or negative discount is 0, one in [0, 0.3] is kept, and one above 0.3 is 0.3 |
| VehicleTax.HybridLe50ScalesHybridGt50 | client/src/lib/taxCalculations.ts:366-390 | a hybrid_le_50 vehicle succeeds exactly when the same vehicle as hybrid_gt_50 does, and pays that amount times one minus the clamped discount |
| VehicleTax.RatedTaxHybridScales | client/src/lib/taxCalculations.ts:378-386 | the low-emission amount is the plain amount times one minus the clamped discount |
| VehicleTax.RatedTaxDiscountBounds | client/src/lib/taxCalculations.ts:381-386 | with a non-negative rate and capacity the discounted amount lies between 70% and 100% of the plain amount |
| VehicleTax.HybridLe50Bounds | client/src/lib/taxCalculations.ts:381-386 | a hybrid_le_50 vehicle pays between 70% and 100% of what it would pay as hybrid_gt_50 |
| VehicleTax.HybridDiscountClamped | client/src/lib/taxCalculations.ts:382-389 | a discount of 0.3 or more acts as 0.3; zero or less leaves the tax undiscounted |
| VehicleTax.DiscountOnlyForHybridLe50 | client/src/lib/taxCalculations.ts:381 | the local discount changes nothing for any other norm |
| VehicleTax.RatesPositive | client/src/lib/taxCalculations.ts:64-153 | every rate in the table is positive |
| VehicleTax.RatedTaxNonNegative | client/src/lib/taxCalculations.ts:377-386 | a non-negative rate and capacity give a non-negative amount |
| VehicleTax.VehicleTaxNonNegative | client/src/lib/taxCalculations.ts:309-393 | a non-negative capacity never gives a negative tax |
| VehicleTax.RatedTaxMultipliesOut | client/src/lib/taxCalculations.ts:379-385 | the breakdown factors of the rated amount multiply to its tax |
| VehicleTax.VehicleBreakdownMultipliesOut | client/src/lib/taxCalculations.ts:309-393 | every successful vehicle result's breakdown factors multiply to its tax |
| BuildingTax.ParseBuildingType | client/src/lib/taxCalculations.ts:403-406 | a building type key is accepted exactly when it is one of A–D, and prints back as the key |
| BuildingTax.GetBuildingTypeDetails | client/src/lib/taxCalculations.ts:514-516 | every type's rate without utilities is positive and not above its rate with utilities |
| BuildingTax.UsageMultiplier | client/src/lib/taxCalculations.ts:416-417 | the multiplier is 0.75 exactly for locuinta, 0.5 exactly for alte_scopuri, and 1 otherwise |
| BuildingTax.LocalRateFraction | client/src/lib/taxCalculations.ts:420 | a percentage in [0.08, 0.2] is divided by 100; one below gives 0.0008 and one above 0.002 |
| BuildingTax.BuildingTaxErrors | client/src/lib/taxCalculations.ts:403-415 | an unknown type is rejected first, then an unknown zone or rank, and the calculation succeeds exactly when all three are known |
| BuildingTax.AssessBuildingProduct | client/src/lib/taxCalculations.ts:416-422 | the assessed amount is area × rate × coefficient × usage multiplier × local fraction |
| BuildingTax.BuildingTaxAssesses | client/src/lib/taxCalculations.ts:403-422 | with known keys the calculation assesses the type's rate as the utilities flag selects it and the zone/rank coefficient |
| BuildingTax.AssessBuildingMonotone | client/src/lib/taxCalculations.ts:421-422 | the amount is non-negative and does not decrease as the area, rate, coefficient or usage multiplier grows |
| BuildingTax.AssessBuildingByMultipliers | client/src/lib/taxCalculations.ts:416-422 | usage keys and local percentages with the same multiplier and fraction give the same result |
| BuildingTax.UtilitiesRateDominates | client/src/lib/taxCalculations.ts:156-181 | for every type the rate with utilities is at least the positive rate without |
| BuildingTax.CityCoefficientsOrdered | client/src/lib/taxCalculations.ts:184-189 | coefficients are positive and do not increase from zone A to D and from rank 0 to V |
| BuildingTax.LocalRateClamped | client/src/lib/taxCalculations.ts:420 | a local percentage below 0.08 acts as 0.08 and one above 0.2 acts as 0.2 |
| BuildingTax.BuildingTaxMonotoneInArea | client/src/lib/taxCalculations.ts:421-422 | a larger area never gives a lower tax, and the tax is non-negative |
| BuildingTax.UtilitiesNeverLower | client/src/lib/taxCalculations.ts:408-410 | a building with utilities never pays less than the same building without |
| BuildingTax.UsageOrder | client/src/lib/taxCalculations.ts:416-422 | a lower usage multiplier never gives a higher tax |
| BuildingTax.SpecialUsageNeverRaises | client/src/lib/taxCalculations.ts:416-417 | alte_scopuri pays at most locuinta, which pays at most no special usage; an absent usage is the same as "none" |
| BuildingTax.AssessBuildingMultipliesOut | client/src/lib/taxCalculations.ts:421-431 | the breakdown factors, the usage multiplier shown only when not 1, multiply to the tax |
| BuildingTax.BuildingBreakdownMultipliesOut | client/src/lib/taxCalculations.ts:399-434 | every successful building result's breakdown factors multiply to its tax |
| LandTax.ParseLandUse | client/src/lib/taxCalculations.ts:291-303 | a category key is accepted exactly when it is one of the eleven keys of the extravilan table, and an accepted key is the key of the category it names |
| LandTax.ParseLandUseKeys | client/src/lib/taxCalculations.ts:291-303 | each category's key parses back to that category |
| LandTax.Hectares | client/src/lib/taxCalculations.ts:525 | the area in hectares times 10000 is the area in m² |
| LandTax.AsRange | client/src/lib/taxCalculations.ts:573-579 | a single number is read as the range from itself to itself; a range keeps its ends |
| LandTax.LandRequiredFields | client/src/lib/taxCalculations.ts:529-565 | each scenario fails with its missing-fields error exactly when one of the fields it requires is absent or empty |
| LandTax.LandUnknownScenario | client/src/lib/taxCalculations.ts:529-587 | the calculation fails with an unknown scenario exactly when the key is none of the three scenarios |
| LandTax.IntravilanConstructionFormula | client/src/lib/taxCalculations.ts:529-540 | with zone and rank present, a key outside the table is an error, and otherwise the tax is the area in hectares times the midpoint of the range |
| LandTax.IntravilanOtherErrors | client/src/lib/taxCalculations.ts:542-555 | an unknown zone or category, or construction land, is rejected as such, and only then an unknown rank |
| LandTax.IntravilanOtherFormula | client/src/lib/taxCalculations.ts:542-559 | with known keys and a category other than construction, the tax is hectares × base rate × rank coefficient, listing those three factors |
| LandTax.ExtravilanErrors | client/src/lib/taxCalculations.ts:561-572 | an unknown category is rejected first, then an unknown rank |
| LandTax.ExtravilanFormula | client/src/lib/taxCalculations.ts:561-585 | with known keys the tax is hectares × midpoint of the category's range × rank coefficient, listing those three factors |
| LandTax.ConstructionRejectedIntravilanOther | client/src/lib/taxCalculations.ts:229-278 | construction land above 400 m² in an intravilan zone is rejected as an invalid zone or category |
| LandTax.IntravilanConstructionExample | client/src/lib/taxCalculations.ts:193-200 | one hectare in zone A of a rank-0 locality pays the midpoint of 8282–20706, 14494 |
| LandTax.ConstructionRangesWellFormed | client/src/lib/taxCalculations.ts:193-226 | every intravilan construction range is non-negative with min ≤ max, so its midpoint lies inside it |
| LandTax.IntravilanOtherBaseWellFormed | client/src/lib/taxCalculations.ts:229-278 | every intravilan base rate is non-negative, and only construction land has none |
| LandTax.ExtravilanRangesWellFormed | client/src/lib/taxCalculations.ts:291-303 | every extravilan entry is a non-negative range with min ≤ max, so its midpoint lies inside it |
| LandTax.CorrectionCoefficientsOrdered | client/src/lib/taxCalculations.ts:281-288 | correction coefficients are at least 1 and do not increase from rank 0 to rank V |
| LandTax.RatingShape | client/src/lib/taxCalculations.ts:529-585 | every rate per hectare is non-negative and its one or two shown factors multiply out to it |
| LandTax.AppliedScaledRating | client/src/lib/taxCalculations.ts:555-557 | a rate scaled by a coefficient, applied to an area, gives area × rate × coefficient with those three factors |
| LandTax.LandBreakdownMultipliesOut | client/src/lib/taxCalculations.ts:521-588 | every successful land result's breakdown factors multiply to its tax |
| LandTax.AppliedRatingMonotone | client/src/lib/taxCalculations.ts:537 | for a non-negative rate the tax is non-negative and grows with the area |
| LandTax.LandTaxMonotoneInArea | client/src/lib/taxCalculations.ts:521-588 | a larger area in the same scenario also succeeds and never pays less, and a non-negative area never pays a negative tax |
| Enumerations.VehicleTypesCoverCategories | client/src/lib/taxCalculations.ts:439-446 | each listed vehicle type selects its own category and every category is listed |
| Enumerations.EuroNormsAccepted | client/src/lib/taxCalculations.ts:451-461 | a norm is listed exactly when the vehicle tax accepts it |
| Enumerations.BuildingKeysAccepted | client/src/lib/taxCalculations.ts:466-509 | the listed building types, zones and ranks are exactly the keys the tables accept |
| Enumerations.LandUseCategoriesAccepted | client/src/lib/taxCalculations.ts:598-612 | the listed land-use categories are exactly the ones the land tables know |
| Enumerations.LandTaxScenariosAccepted | client/src/lib/taxCalculations.ts:590-596 | the land tax rejects a scenario as unknown exactly when it is not listed |
| Enumerations.OnlyConstructionLacksIntravilanBase | client/src/lib/taxCalculations.ts:598-612 | of the listed categories only construction has no intravilan base rate, in every zone |
| CivilTime.CalendarAnchors | client/src/lib/dateUtils.ts:10 | the day count is 0 at 1970-01-01, 20543 at 2026-03-31, and consecutive across 28 February–1 March and 31 March–1 April 2026 |
| CivilTime.LocalDayBefore | client/src/lib/dateUtils.ts:15-16 | an instant falls on local day n or earlier exactly when it is before the midnight starting day n + 1 |
| EarlyPayment.ApplyEarlyPaymentDiscount | client/src/lib/taxCalculations.ts:631-645 | the original tax is kept, discount plus amount due is the original, no discount leaves the tax unchanged, and the discount is a tenth of the tax |
| EarlyPayment.DiscountExample | client/src/lib/taxCalculations.ts:631-645 | 1000 paid early splits into 100 off and 900 due; without the discount 1000 is due |
| EarlyPayment.DiscountBounds | client/src/lib/taxCalculations.ts:636-644 | with the discount 90% is due; for a non-negative tax 0 ≤ discount ≤ amount due ≤ tax |
| EarlyPayment.EligibleByLocalClock | client/src/lib/taxCalculations.ts:619-623 | eligible exactly while the local clock shows at most 31 March 2026 23:59:59.000 |
| EarlyPayment.LastSecondIneligible | client/src/lib/taxCalculations.ts:621-622 | the last 999 ms of 31 March, local date still 31 March, are not eligible |
| EarlyPayment.EligibilityMonotone | client/src/lib/taxCalculations.ts:619-623 | eligibility only ends: an earlier instant than an eligible one is eligible, the deadline is eligible and one ms after is not |
| DateUtils.GetDiscountRate | client/src/lib/dateUtils.ts:23-25 | the rate is 0.1 exactly when the discount is available and 0 otherwise |
| DateUtils.DeadlineInstant | client/src/lib/dateUtils.ts:10 | 2026-04-01T00:00:00+03:00 is 2026-03-31T21:00:00Z, 1774990800000 ms after the epoch |
| DateUtils.AvailableThroughMarch31 | client/src/lib/dateUtils.ts:5-17 | the discount is available exactly on instants whose Romanian date is 31 March 2026 or earlier |
| DateUtils.AvailabilityEnds | client/src/lib/dateUtils.ts:16 | not available at the deadline, available 1 ms before, never available again once gone, and the rate never rises |
| DiscountDeadlines.DeadlinesDisagree | client/src/lib/dateUtils.ts:10-16 | on Romanian summer time the two deadline tests differ exactly in the last second before the deadline, strictly after 23:59:59.000 |
| DiscountDeadlines.SplitUsesAdvertisedRate | client/src/lib/dateUtils.ts:23-25 | splitting with availability as the switch takes off exactly the advertised rate |

## Left out

- Breakdown text: the model keeps the factors each breakdown multiplies, not the text, its `toFixed` rounding or its wording.
- Floating point: amounts are exact reals; IEEE rounding, NaN and infinite inputs are not modelled.
- Keys inherited by JavaScript objects (such as "toString") are not treated as table keys; only the listed keys are.
- Building type descriptions and the option lists' display labels are not modelled; the lists keep their keys in order.
- The wall clock and the local time zone: the current instant and the local clock's UTC offset are parameters.
- The user interface, maps, theme, build scripts and server are not part of this model.
- VehicleTax.VehicleTaxNonNegative: stated for a non-negative capacity only, because a negative motorcycle, bus or other capacity gives a negative tax.
- VehicleTax.HybridLe50Bounds: stated for a non-negative capacity only, for the same reason.
