/**
 * Geographic cells and the climate-adjusted weighting of the standard index
 * (models/cells.py): the climate-harshness index, the urbanisation level, the
 * coordinate checks of a cell, and the ten-entry climate weight table that is
 * renormalised to sum to 1.
 */
module Cells {
  import opened Outcomes
  import opened Tables
  import opened Mpi

  /** `np.clip(x, lo, hi)` for scalars. */
  function Clip(x: real, lo: real, hi: real): (r: real)
    requires lo <= hi
    ensures lo <= r <= hi
    ensures lo <= x <= hi ==> r == x
    ensures x < lo ==> r == lo
    ensures hi < x ==> r == hi
  {
    if x < lo then lo else if hi < x then hi else x
  }

  /** Python's `max(0, x)`. */
  function NonNegativePart(x: real): (r: real)
    ensures 0.0 <= r && x <= r
    ensures r == 0.0 <==> x <= 0.0
  {
    if 0.0 < x then x else 0.0
  }

  /** Climate characteristics of a cell (temperatures in °C, degree days per year). */
  datatype ClimateProfile = ClimateProfile(
    avgTempRange: real, heatingDegreeDays: real, coolingDegreeDays: real,
    annualPrecipitation: real, avgHumidity: real, tempMin: real, tempMax: real)
  {
    /** How far the annual extremes leave the 18–24 °C comfort zone, over 50. */
    function ComfortDeviation(): (c: real)
      ensures 0.0 <= c
      ensures c == 0.0 <==> 18.0 <= tempMin && tempMax <= 24.0
    {
      (NonNegativePart(18.0 - tempMin) + NonNegativePart(tempMax - 24.0)) / 50.0
    }

    /** The unclipped harshness: half the comfort deviation plus half the degree days over 3000. */
    function RawHarshness(): real {
      0.5 * ComfortDeviation() + 0.5 * ((heatingDegreeDays + coolingDegreeDays) / 3000.0)
    }

    /** `climate_harshness`: the raw harshness clipped to [0, 1]. */
    function ClimateHarshness(): (h: real)
      ensures InUnit(h)
      ensures InUnit(RawHarshness()) ==> h == RawHarshness()
      ensures RawHarshness() < 0.0 ==> h == 0.0
      ensures 1.0 < RawHarshness() ==> h == 1.0
    {
      Clip(RawHarshness(), 0.0, 1.0)
    }
  }

  /** More heating or cooling degree days never make a climate less harsh. */
  lemma HarshnessMonotone(c1: ClimateProfile, c2: ClimateProfile)
    requires c1.tempMin == c2.tempMin && c1.tempMax == c2.tempMax
    requires c1.heatingDegreeDays + c1.coolingDegreeDays <= c2.heatingDegreeDays + c2.coolingDegreeDays
    ensures c1.ClimateHarshness() <= c2.ClimateHarshness()
  {
    DivideMonotone(c1.heatingDegreeDays + c1.coolingDegreeDays, c2.heatingDegreeDays + c2.coolingDegreeDays, 3000.0);
  }

  /** Dividing by a positive number preserves order. */
  lemma DivideMonotone(a: real, b: real, t: real)
    requires a <= b && 0.0 < t
    ensures a / t <= b / t
  {
    var x, y := a / t, b / t;
    assert x * t == a && y * t == b;
    assert (y - x) * t >= 0.0;
  }

  /** Socioeconomic and infrastructure context of a cell. */
  datatype ContextFactors = ContextFactors(
    populationDensity: real, urbanRuralIndex: real, infrastructureIndex: real,
    elevation: real, distanceToServices: real)
  {
    /**
     * `urbanization_level`: half the density factor plus half the urban–rural index.
     * The density factor is `log10(max(1, density)) / 4` clipped to [0, 1]; the
     * logarithm is not modelled and is passed in as `log10Density`.
     */
    function UrbanizationLevel(log10Density: real): (u: real)
      ensures u == 0.5 * Clip(log10Density / 4.0, 0.0, 1.0) + 0.5 * urbanRuralIndex
      ensures InUnit(urbanRuralIndex) ==> InUnit(u)
    {
      0.5 * Clip(log10Density / 4.0, 0.0, 1.0) + 0.5 * urbanRuralIndex
    }
  }

  /** Why a cell cannot be built or weighted. */
  datatype CellError =
    | InvalidLatitude(lat: real)
    | InvalidLongitude(lon: real)
    | MissingClimate

  /** A geographic cell with optional climate and context data. */
  datatype GeographicCell = GeographicCell(
    cellId: string, lat: real, lon: real, name: Option<string>,
    climate: Option<ClimateProfile>, context: Option<ContextFactors>)
  {
    /** The coordinates lie on the globe. */
    predicate ValidCoordinates() {
      -90.0 <= lat <= 90.0 && -180.0 <= lon <= 180.0
    }

    /** `has_complete_data`: both climate and context data are present. */
    predicate HasCompleteData() {
      climate.Some? && context.Some?
    }
  }

  /**
   * Construction of a `GeographicCell`: the latitude is checked first, then the
   * longitude; a cell with valid coordinates is accepted unchanged.
   */
  function NewGeographicCell(c: GeographicCell): (r: Result<GeographicCell, CellError>)
    ensures r.Success? <==> c.ValidCoordinates()
    ensures r.Success? ==> r.value == c
    ensures r.Failure? && !(-90.0 <= c.lat <= 90.0) ==> r.error == InvalidLatitude(c.lat)
    ensures r.Failure? && -90.0 <= c.lat <= 90.0 ==> r.error == InvalidLongitude(c.lon)
  {
    if !(-90.0 <= c.lat <= 90.0) then Failure(InvalidLatitude(c.lat))
    else if !(-180.0 <= c.lon <= 180.0) then Failure(InvalidLongitude(c.lon))
    else Success(c)
  }

  /** The entry of the climate table before renormalisation. */
  function ClimateEntry(i: Indicator, harshness: real, urbanization: real): real {
    match i
    case Electricity => 0.08 + 0.12 * harshness
    case CookingFuel => 0.05 + 0.05 * harshness
    case Sanitation | DrinkingWater => 0.08 + 0.07 * urbanization
    case Flooring => 0.08 + 0.07 * harshness
    case Nutrition | ChildMortality => 0.15
    case YearsSchooling | SchoolAttendance => 0.08
    case Assets => 0.07
  }

  /** The climate table before renormalisation. */
  function ClimateRaw(harshness: real, urbanization: real): WeightTable {
    map i | i in Indicators :: ClimateEntry(i, harshness, urbanization)
  }

  /** What the climate table sums to before renormalisation: 0.90 plus the adjustments (not 1). */
  function ClimateTotal(harshness: real, urbanization: real): real {
    0.90 + 0.24 * harshness + 0.14 * urbanization
  }

  /** Every indicator is in the raw climate table with its climate entry. */
  lemma ClimateRawEntries(harshness: real, urbanization: real)
    ensures Covers(ClimateRaw(harshness, urbanization))
    ensures forall i: Indicator :: Get(ClimateRaw(harshness, urbanization), i) == ClimateEntry(i, harshness, urbanization)
  {
    IndicatorsEnumerate();
  }

  /** A table of climate entries totals `ClimateTotal`. */
  lemma ClimateRawTotal(w: WeightTable, harshness: real, urbanization: real)
    requires forall i: Indicator :: Get(w, i) == ClimateEntry(i, harshness, urbanization)
    ensures Total(w, Indicators) == ClimateTotal(harshness, urbanization)
  {
    TotalOfIndicators(w);
  }

  /**
   * The climate-adjusted weights: the climate entries divided by their total.
   * They cover the ten standard indicators and sum to 1; with non-negative
   * harshness and urbanisation every weight is positive.
   */
  function ClimateWeights(harshness: real, urbanization: real): (r: WeightTable)
    requires ClimateTotal(harshness, urbanization) != 0.0
    ensures Covers(r)
    ensures Total(r, Indicators) == 1.0
    ensures forall i: Indicator ::
      r[i] == ClimateEntry(i, harshness, urbanization) / ClimateTotal(harshness, urbanization)
    ensures 0.0 <= harshness && 0.0 <= urbanization ==> Positive(r, Indicators)
  {
    ClimateRawEntries(harshness, urbanization);
    NormalizedClimate(ClimateRaw(harshness, urbanization), harshness, urbanization);
    Normalized(ClimateRaw(harshness, urbanization), ClimateTotal(harshness, urbanization))
  }

  /** Dividing a table of climate entries by their total gives a covering table that sums to 1. */
  lemma NormalizedClimate(raw: WeightTable, harshness: real, urbanization: real)
    requires Covers(raw)
    requires forall i: Indicator :: Get(raw, i) == ClimateEntry(i, harshness, urbanization)
    requires ClimateTotal(harshness, urbanization) != 0.0
    ensures var r := Normalized(raw, ClimateTotal(harshness, urbanization));
      && Covers(r)
      && Total(r, Indicators) == 1.0
      && (forall i: Indicator ::
            r[i] == ClimateEntry(i, harshness, urbanization) / ClimateTotal(harshness, urbanization))
      && (0.0 <= harshness && 0.0 <= urbanization ==> Positive(r, Indicators))
  {
    ClimateRawTotal(raw, harshness, urbanization);
    NormalizedSumsToOne(raw, Indicators);
    ClimateRawPositive(raw, harshness, urbanization);
  }

  /** With non-negative harshness and urbanisation every climate entry is positive. */
  lemma ClimateRawPositive(w: WeightTable, harshness: real, urbanization: real)
    requires forall i: Indicator :: Get(w, i) == ClimateEntry(i, harshness, urbanization)
    ensures 0.0 <= harshness && 0.0 <= urbanization ==> Positive(w, Indicators)
  {
  }

  /** The harshness of a cell that has climate data. */
  function CellHarshness(cell: GeographicCell): real
    requires cell.climate.Some?
  {
    cell.climate.value.ClimateHarshness()
  }

  /** The urbanisation of a cell: from its context when present, else 0.5. */
  function CellUrbanization(cell: GeographicCell, log10Density: real): (u: real)
    ensures cell.context.None? ==> u == 0.5
    ensures cell.context.Some? ==> u == cell.context.value.UrbanizationLevel(log10Density)
    ensures cell.context.Some? && InUnit(cell.context.value.urbanRuralIndex) ==> InUnit(u)
    ensures cell.context.None? ==> InUnit(u)
  {
    if cell.context.Some? then cell.context.value.UrbanizationLevel(log10Density) else 0.5
  }

  /**
   * `get_climate_weights`: fails without climate data; otherwise the climate table
   * for the cell's harshness and urbanisation, renormalised. The total must be
   * non-zero (the source divides by it).
   */
  function GetClimateWeights(cell: GeographicCell, log10Density: real): (r: Result<WeightTable, CellError>)
    requires cell.climate.Some? ==> ClimateTotal(CellHarshness(cell), CellUrbanization(cell, log10Density)) != 0.0
    ensures r.Failure? <==> cell.climate.None?
    ensures r.Failure? ==> r.error == MissingClimate
    ensures r.Success? ==> r.value == ClimateWeights(CellHarshness(cell), CellUrbanization(cell, log10Density))
    ensures r.Success? ==> Covers(r.value) && Total(r.value, Indicators) == 1.0
    ensures r.Success? && 0.0 <= CellUrbanization(cell, log10Density) ==> Positive(r.value, Indicators)
  {
    if cell.climate.None? then Failure(MissingClimate)
    else
      var harshness := cell.climate.value.ClimateHarshness();
      var urbanization := if cell.context.Some? then cell.context.value.UrbanizationLevel(log10Density) else 0.5;
      Success(ClimateWeights(harshness, urbanization))
  }

  /** A cell with complete data, and an urban–rural index in [0, 1], always gets a positive table summing to 1. */
  lemma CompleteCellHasWeights(cell: GeographicCell, log10Density: real)
    requires cell.HasCompleteData() && InUnit(cell.context.value.urbanRuralIndex)
    ensures GetClimateWeights(cell, log10Density).Success?
    ensures Positive(GetClimateWeights(cell, log10Density).value, Indicators)
    ensures Total(GetClimateWeights(cell, log10Density).value, Indicators) == 1.0
  {
    var u := CellUrbanization(cell, log10Density);
    assert InUnit(CellHarshness(cell)) && InUnit(u);
  }

  /**
   * Before renormalisation, electricity, cooking fuel and flooring grow with
   * harshness, sanitation and drinking water with urbanisation, and the other
   * five entries are constants.
   */
  lemma ClimateEntryMonotone(i: Indicator, h1: real, h2: real, u1: real, u2: real)
    requires h1 <= h2 && u1 <= u2
    ensures ClimateEntry(i, h1, u1) <= ClimateEntry(i, h2, u2)
    ensures i in {Nutrition, ChildMortality, YearsSchooling, SchoolAttendance, Assets} ==>
      ClimateEntry(i, h1, u1) == ClimateEntry(i, h2, u2)
    ensures i in {Electricity, CookingFuel, Flooring} && h1 < h2 ==> ClimateEntry(i, h1, u1) < ClimateEntry(i, h2, u2)
    ensures i in {Sanitation, DrinkingWater} && u1 < u2 ==> ClimateEntry(i, h1, u1) < ClimateEntry(i, h2, u2)
  {
  }

  /** After renormalisation, the electricity share strictly grows with harshness. */
  lemma ElectricityShareRises(h1: real, h2: real, urbanization: real)
    requires 0.0 <= h1 < h2 && 0.0 <= urbanization
    ensures ClimateWeights(h1, urbanization)[Electricity] < ClimateWeights(h2, urbanization)[Electricity]
  {
    var a1, a2 := ClimateEntry(Electricity, h1, urbanization), ClimateEntry(Electricity, h2, urbanization);
    var t1, t2 := ClimateTotal(h1, urbanization), ClimateTotal(h2, urbanization);
    assert a2 * t1 - a1 * t2 == (h2 - h1) * (0.0888 + 0.0168 * urbanization);
    PositiveProduct(h2 - h1, 0.0888 + 0.0168 * urbanization);
    FractionLess(a1, t1, a2, t2);
  }

  /** After renormalisation, the sanitation share strictly grows with urbanisation. */
  lemma SanitationShareRises(harshness: real, u1: real, u2: real)
    requires 0.0 <= harshness && 0.0 <= u1 < u2
    ensures ClimateWeights(harshness, u1)[Sanitation] < ClimateWeights(harshness, u2)[Sanitation]
  {
    var a1, a2 := ClimateEntry(Sanitation, harshness, u1), ClimateEntry(Sanitation, harshness, u2);
    var t1, t2 := ClimateTotal(harshness, u1), ClimateTotal(harshness, u2);
    assert a2 * t1 - a1 * t2 == (u2 - u1) * (0.0518 + 0.0168 * harshness);
    PositiveProduct(u2 - u1, 0.0518 + 0.0168 * harshness);
    FractionLess(a1, t1, a2, t2);
  }

  /** After renormalisation, a constant entry such as nutrition loses share as harshness grows. */
  lemma NutritionShareFalls(h1: real, h2: real, urbanization: real)
    requires 0.0 <= h1 < h2 && 0.0 <= urbanization
    ensures ClimateWeights(h2, urbanization)[Nutrition] < ClimateWeights(h1, urbanization)[Nutrition]
  {
    var t1, t2 := ClimateTotal(h1, urbanization), ClimateTotal(h2, urbanization);
    assert 0.15 * t1 - 0.15 * t2 < 0.0;
    FractionLess(0.15, t2, 0.15, t1);
  }

  /** Deprived (fully) in electricity, sanitation, flooring and cooking fuel only. */
  const FourLivingStandards := DeprivationScore(0.0, 0.0, 0.0, 0.0, 1.0, 1.0, 0.0, 1.0, 1.0, 0.0)

  /** Such a household scores the sum of those four weights. */
  lemma ScoreOfFourLivingStandards(w: WeightTable)
    ensures WeightedScore(FourLivingStandards, w) ==
      Get(w, Electricity) + Get(w, Sanitation) + Get(w, Flooring) + Get(w, CookingFuel)
  {
    WeightedScoreOfIndicators(FourLivingStandards, w);
  }

  /** Under the standard weights it scores 4/18, below the cutoff. */
  lemma StandardScoreOfFour()
    ensures WeightedScore(FourLivingStandards, StandardWeights()) == 4.0 / 18.0
  {
    var s := StandardWeights();
    ScoreOfFourLivingStandards(s);
    assert s[Electricity] == s[Sanitation] == s[Flooring] == s[CookingFuel] == 1.0 / 18.0;
  }

  /** Under the climate weights for harshness 1 and urbanisation 0 it scores 0.53/1.14, above the cutoff. */
  lemma ClimateScoreOfFour()
    ensures WeightedScore(FourLivingStandards, ClimateWeights(1.0, 0.0)) == 0.53 / 1.14
  {
    var c := ClimateWeights(1.0, 0.0);
    ScoreOfFourLivingStandards(c);
    assert c[Electricity] == 0.20 / 1.14 && c[Sanitation] == 0.08 / 1.14;
    assert c[Flooring] == 0.15 / 1.14 && c[CookingFuel] == 0.10 / 1.14;
  }

  /**
   * A household with those four deprivations is not poor under the standard
   * weights but is poor under the climate weights of the harshest rural cell:
   * the climate table changes its classification.
   */
  lemma ClimateWeightsChangeClassification(h: Household)
    requires h.deprivations == FourLivingStandards
    ensures !HouseholdMpi(h).isPoor
    ensures HouseholdMpi(h, Some(ClimateWeights(1.0, 0.0))).isPoor
    ensures CompareStandardVsAdjusted(h, ClimateWeights(1.0, 0.0)).classificationChanged
  {
    StandardScoreOfFour();
    ClimateScoreOfFour();
  }
}
