/**
 * The enhanced Multidimensional Poverty Index (models/enhanced_mpi.py): the nine
 * standard indicators other than flooring, a housing dimension split into
 * structure, tenure and cost, and four new composite dimensions (digital,
 * transport, economic security, environment); a 14-entry weight table, its
 * context-adjusted renormalised variant, the housing sub-component weights,
 * and the enhanced score and classification.
 */
module EnhancedMpi {
  import opened Outcomes
  import opened Tables
  import Mpi

  /** Housing deprivation, separated into physical structure, tenure and cost burden. */
  datatype HousingDeprivation = HousingDeprivation(structureQuality: real, tenureSecurity: real, costBurden: real)
  {
    predicate Valid() {
      InUnit(structureQuality) && InUnit(tenureSecurity) && InUnit(costBurden)
    }

    /** Structure 40%, tenure 30%, cost 30%: a convex combination of the three parts. */
    function CompositeScore(): (s: real)
      ensures Valid() ==> InUnit(s)
      ensures structureQuality == tenureSecurity == costBurden ==> s == structureQuality
    {
      0.4 * structureQuality + 0.3 * tenureSecurity + 0.3 * costBurden
    }
  }

  /** Digital connectivity and literacy deprivation. */
  datatype DigitalDeprivation = DigitalDeprivation(noInternetAccess: real, noDevice: real, digitalIlliteracy: real)
  {
    predicate Valid() {
      InUnit(noInternetAccess) && InUnit(noDevice) && InUnit(digitalIlliteracy)
    }

    /** The mean of the three indicators. */
    function CompositeScore(): (s: real)
      ensures Valid() ==> InUnit(s)
      ensures noInternetAccess == noDevice == digitalIlliteracy ==> s == noInternetAccess
    {
      (noInternetAccess + noDevice + digitalIlliteracy) / 3.0
    }
  }

  /** Transport access and cost deprivation. */
  datatype TransportDeprivation = TransportDeprivation(
    excessiveCommuteTime: real, transportCostBurden: real, noTransportAccess: real)
  {
    predicate Valid() {
      InUnit(excessiveCommuteTime) && InUnit(transportCostBurden) && InUnit(noTransportAccess)
    }

    /** Access 40%, commute time 30%, cost 30%. */
    function CompositeScore(): (s: real)
      ensures Valid() ==> InUnit(s)
      ensures excessiveCommuteTime == transportCostBurden == noTransportAccess ==> s == noTransportAccess
    {
      0.4 * noTransportAccess + 0.3 * excessiveCommuteTime + 0.3 * transportCostBurden
    }
  }

  /** Economic security and vulnerability. */
  datatype EconomicVulnerability = EconomicVulnerability(
    incomeVolatility: real, noEmergencySavings: real, noSocialProtection: real, highDebtBurden: real)
  {
    predicate Valid() {
      InUnit(incomeVolatility) && InUnit(noEmergencySavings) && InUnit(noSocialProtection) && InUnit(highDebtBurden)
    }

    /** The mean of the four indicators. */
    function CompositeScore(): (s: real)
      ensures Valid() ==> InUnit(s)
      ensures incomeVolatility == noEmergencySavings == noSocialProtection == highDebtBurden ==> s == incomeVolatility
    {
      (incomeVolatility + noEmergencySavings + noSocialProtection + highDebtBurden) / 4.0
    }
  }

  /** Environmental hazards and climate exposure. */
  datatype EnvironmentalDeprivation = EnvironmentalDeprivation(
    poorAirQuality: real, floodRisk: real, heatExposure: real, toxicProximity: real)
  {
    predicate Valid() {
      InUnit(poorAirQuality) && InUnit(floodRisk) && InUnit(heatExposure) && InUnit(toxicProximity)
    }

    /** Air quality 30%, heat 30%, flood 25%, toxic sites 15%. */
    function CompositeScore(): (s: real)
      ensures Valid() ==> InUnit(s)
      ensures poorAirQuality == floodRisk == heatExposure == toxicProximity ==> s == poorAirQuality
    {
      0.3 * poorAirQuality + 0.3 * heatExposure + 0.25 * floodRisk + 0.15 * toxicProximity
    }
  }

  /**
   * The fourteen weighted dimensions: nine of the standard indicators, the
   * enhanced housing dimension that takes flooring's place, and four new ones.
   */
  datatype Dimension =
    | Nutrition | ChildMortality
    | YearsSchooling | SchoolAttendance
    | Electricity | Sanitation | DrinkingWater | CookingFuel | Assets
    | Housing
    | Digital | Transport | EconomicSecurity | Environment

  /** The nine plain indicators, in the order in which they are scored (and declared). */
  const SimpleDimensions: seq<Dimension> :=
    [Nutrition, ChildMortality, YearsSchooling, SchoolAttendance,
     Electricity, Sanitation, DrinkingWater, CookingFuel, Assets]

  /** All fourteen dimensions, in the key order of the enhanced weight table. */
  const Dimensions: seq<Dimension> :=
    [Nutrition, ChildMortality, YearsSchooling, SchoolAttendance,
     Electricity, Sanitation, DrinkingWater, CookingFuel, Assets,
     Housing, Digital, Transport, EconomicSecurity, Environment]

  /** The dimension's key in the weight table and field name in the record. */
  function Name(k: Dimension): string {
    match k
    case Nutrition => "nutrition"
    case ChildMortality => "child_mortality"
    case YearsSchooling => "years_schooling"
    case SchoolAttendance => "school_attendance"
    case Electricity => "electricity"
    case Sanitation => "sanitation"
    case DrinkingWater => "drinking_water"
    case CookingFuel => "cooking_fuel"
    case Assets => "assets"
    case Housing => "housing"
    case Digital => "digital"
    case Transport => "transport"
    case EconomicSecurity => "economic_security"
    case Environment => "environment"
  }

  /** Every dimension occurs in `Dimensions`, exactly once. */
  lemma DimensionsEnumerate()
    ensures forall k: Dimension :: k in Dimensions
    ensures forall m, n | 0 <= m < n < |Dimensions| :: Dimensions[m] != Dimensions[n]
  {
    forall k: Dimension ensures k in Dimensions {
      match k
      case Nutrition => assert Dimensions[0] == k;
      case ChildMortality => assert Dimensions[1] == k;
      case YearsSchooling => assert Dimensions[2] == k;
      case SchoolAttendance => assert Dimensions[3] == k;
      case Electricity => assert Dimensions[4] == k;
      case Sanitation => assert Dimensions[5] == k;
      case DrinkingWater => assert Dimensions[6] == k;
      case CookingFuel => assert Dimensions[7] == k;
      case Assets => assert Dimensions[8] == k;
      case Housing => assert Dimensions[9] == k;
      case Digital => assert Dimensions[10] == k;
      case Transport => assert Dimensions[11] == k;
      case EconomicSecurity => assert Dimensions[12] == k;
      case Environment => assert Dimensions[13] == k;
    }
  }

  /** Weights of the housing sub-components. */
  datatype HousingWeights = HousingWeights(structure: real, tenure: real, cost: real)
  {
    /** Non-negative shares summing to 1. */
    predicate Convex() {
      0.0 <= structure && 0.0 <= tenure && 0.0 <= cost && structure + tenure + cost == 1.0
    }

    /** The housing deprivation under these sub-component weights. */
    function Apply(h: HousingDeprivation): (s: real)
      ensures Convex() && h.Valid() ==> InUnit(s)
    {
      WeightedSumBounds(structure, tenure, cost, h.structureQuality, h.tenureSecurity, h.costBurden);
      structure * h.structureQuality + tenure * h.tenureSecurity + cost * h.costBurden
    }
  }

  /** Three non-negative weights of values in [0, 1]: the weighted sum lies between 0 and the weights' sum. */
  lemma WeightedSumBounds(a: real, b: real, c: real, x: real, y: real, z: real)
    ensures 0.0 <= a && 0.0 <= b && 0.0 <= c && InUnit(x) && InUnit(y) && InUnit(z)
      ==> 0.0 <= a * x + b * y + c * z <= a + b + c
  {
    if 0.0 <= a && 0.0 <= b && 0.0 <= c && InUnit(x) && InUnit(y) && InUnit(z) {
      var p, q, r := a * x, b * y, c * z;
      ProductBounds(a, x);
      ProductBounds(b, y);
      ProductBounds(c, z);
      SumOfBounded(p, q, r, a, b, c);
    }
  }

  /** Sums of bounded terms are bounded by the sums of the bounds. */
  lemma SumOfBounded(p: real, q: real, r: real, a: real, b: real, c: real)
    requires 0.0 <= p <= a && 0.0 <= q <= b && 0.0 <= r <= c
    ensures 0.0 <= p + q + r <= a + b + c
  {
  }

  /** The housing sub-weights used when none are given: those of the housing composite score. */
  function DefaultHousingWeights(): (hw: HousingWeights)
    ensures hw.Convex()
    ensures forall h: HousingDeprivation :: hw.Apply(h) == h.CompositeScore()
  {
    HousingWeights(0.4, 0.3, 0.3)
  }

  /** Deprivation in all fourteen dimensions, keeping the standard indicators' values. */
  datatype EnhancedDeprivationScore = EnhancedDeprivationScore(
    nutrition: real, childMortality: real,
    yearsSchooling: real, schoolAttendance: real,
    electricity: real, sanitation: real, drinkingWater: real, cookingFuel: real, assets: real,
    housing: HousingDeprivation,
    digital: DigitalDeprivation,
    transport: TransportDeprivation,
    economicSecurity: EconomicVulnerability,
    environment: EnvironmentalDeprivation)
  {
    /**
     * The deprivation in dimension `k` (housing under the sub-weights `hw`,
     * the other composites by their composite scores).
     */
    function Component(k: Dimension, hw: HousingWeights): real {
      match k
      case Nutrition | ChildMortality | YearsSchooling | SchoolAttendance
         | Electricity | Sanitation | DrinkingWater | CookingFuel | Assets => PlainValue(k)
      case Housing => hw.Apply(housing)
      case Digital => digital.CompositeScore()
      case Transport => transport.CompositeScore()
      case EconomicSecurity => economicSecurity.CompositeScore()
      case Environment => environment.CompositeScore()
    }

    /** The value of one of the nine plain indicator fields. */
    function PlainValue(k: Dimension): real
      requires k in SimpleDimensions
    {
      match k
      case Nutrition => nutrition
      case ChildMortality => childMortality
      case YearsSchooling => yearsSchooling
      case SchoolAttendance => schoolAttendance
      case Electricity => electricity
      case Sanitation => sanitation
      case DrinkingWater => drinkingWater
      case CookingFuel => cookingFuel
      case Assets => assets
    }

    /** What construction checks: the nine plain indicator fields lie in [0, 1]. */
    predicate TopLevelValid() {
      forall k | k in SimpleDimensions :: InUnit(PlainValue(k))
    }

    /** Every field, including those of the nested composites, lies in [0, 1]. */
    predicate Valid() {
      && TopLevelValid()
      && housing.Valid() && digital.Valid() && transport.Valid()
      && economicSecurity.Valid() && environment.Valid()
    }

    /**
     * The ten standard indicators of this record: the nine shared ones copied,
     * and housing structure quality standing in for flooring.
     */
    function ToStandardMpiCompatible(): (r: Mpi.DeprivationScore)
      ensures forall k | k in SimpleDimensions :: r.Value(Shared(k)) == PlainValue(k)
      ensures r.flooring == housing.structureQuality
    {
      Mpi.DeprivationScore(
        nutrition, childMortality, yearsSchooling, schoolAttendance,
        electricity, sanitation, drinkingWater, housing.structureQuality, cookingFuel, assets)
    }
  }

  /** The standard indicator a plain dimension corresponds to (housing maps to flooring). */
  function Shared(k: Dimension): Mpi.Indicator {
    match k
    case Nutrition => Mpi.Nutrition
    case ChildMortality => Mpi.ChildMortality
    case YearsSchooling => Mpi.YearsSchooling
    case SchoolAttendance => Mpi.SchoolAttendance
    case Electricity => Mpi.Electricity
    case Sanitation => Mpi.Sanitation
    case DrinkingWater => Mpi.DrinkingWater
    case CookingFuel => Mpi.CookingFuel
    case Assets => Mpi.Assets
    case _ => Mpi.Flooring
  }

  /** A record that passed construction, with a valid structure quality, is a valid standard record. */
  lemma StandardCompatibleIsValid(d: EnhancedDeprivationScore)
    requires d.TopLevelValid() && InUnit(d.housing.structureQuality)
    ensures d.ToStandardMpiCompatible().Valid()
  {
    assert InUnit(d.nutrition) && InUnit(d.childMortality) by {
      assert d.PlainValue(Nutrition) == d.nutrition && d.PlainValue(ChildMortality) == d.childMortality;
    }
    assert InUnit(d.yearsSchooling) && InUnit(d.schoolAttendance) by {
      assert d.PlainValue(YearsSchooling) == d.yearsSchooling && d.PlainValue(SchoolAttendance) == d.schoolAttendance;
    }
    assert InUnit(d.electricity) && InUnit(d.sanitation) && InUnit(d.drinkingWater) by {
      assert d.PlainValue(Electricity) == d.electricity && d.PlainValue(Sanitation) == d.sanitation;
      assert d.PlainValue(DrinkingWater) == d.drinkingWater;
    }
    assert InUnit(d.cookingFuel) && InUnit(d.assets) by {
      assert d.PlainValue(CookingFuel) == d.cookingFuel && d.PlainValue(Assets) == d.assets;
    }
  }

  /**
   * Construction of an `EnhancedDeprivationScore`: the nine plain indicator fields
   * are checked in declaration order and the first one outside [0, 1] is reported.
   * The nested composite records are not checked.
   */
  method NewEnhancedDeprivationScore(d: EnhancedDeprivationScore)
    returns (r: Result<EnhancedDeprivationScore, RangeError>)
    ensures r.Success? <==> d.TopLevelValid()
    ensures r.Success? ==> r.value == d
    ensures r.Failure? ==>
      exists n | 0 <= n < |SimpleDimensions| ::
        var k := SimpleDimensions[n];
        && !InUnit(d.PlainValue(k))
        && r.error == OutOfRange(Name(k), d.PlainValue(k))
        && forall m | 0 <= m < n :: InUnit(d.PlainValue(SimpleDimensions[m]))
  {
    for n := 0 to |SimpleDimensions|
      invariant forall m | 0 <= m < n :: InUnit(d.PlainValue(SimpleDimensions[m]))
    {
      var k := SimpleDimensions[n];
      var value := d.PlainValue(k);
      if !(0.0 <= value <= 1.0) {
        return Failure(OutOfRange(Name(k), value));
      }
    }
    return Success(d);
  }

  /** An enhanced household: its record and the optional economic context. */
  datatype EnhancedHousehold = EnhancedHousehold(
    householdId: string, cellId: string, deprivations: EnhancedDeprivationScore, householdSize: int,
    numChildren: Option<int>, numElderly: Option<int>,
    monthlyIncome: Option<real>, monthlyHousingCost: Option<real>, monthlyTransportCost: Option<real>,
    tenureType: Option<string>, urbanSprawlIndex: Option<real>, localRentalIndex: Option<real>)
  {
    /** Housing cost as a share of income; absent unless income is positive and the cost is present and non-zero. */
    function HousingCostBurden(): (r: Option<real>)
      ensures r.Some? <==> Truthy(monthlyIncome) && Truthy(monthlyHousingCost) && monthlyIncome.value > 0.0
      ensures r.Some? ==> r.value * monthlyIncome.value == monthlyHousingCost.value
    {
      CostShare(monthlyHousingCost, monthlyIncome)
    }

    /** Transport cost as a share of income, under the same conditions. */
    function TransportCostBurden(): (r: Option<real>)
      ensures r.Some? <==> Truthy(monthlyIncome) && Truthy(monthlyTransportCost) && monthlyIncome.value > 0.0
      ensures r.Some? ==> r.value * monthlyIncome.value == monthlyTransportCost.value
    {
      CostShare(monthlyTransportCost, monthlyIncome)
    }
  }

  /** An optional number is truthy when it is present and non-zero. */
  predicate Truthy(x: Option<real>) {
    x.Some? && x.value != 0.0
  }

  /** `cost / income` when both are truthy and income is positive. */
  function CostShare(cost: Option<real>, income: Option<real>): Option<real> {
    if Truthy(income) && Truthy(cost) && income.value > 0.0 then Some(cost.value / income.value) else None
  }

  /** Weight tables of the enhanced index. */
  type DimensionWeights = map<Dimension, real>

  /** The base entry of each dimension: health and education 0.15 each, living standards and housing 0.40, new dimensions 0.30. */
  function BaseWeight(k: Dimension): real {
    match k
    case Nutrition | ChildMortality | YearsSchooling | SchoolAttendance => 0.075
    case Electricity | Sanitation | DrinkingWater => 0.06
    case CookingFuel | Assets => 0.05
    case Housing => 0.12
    case Digital | Transport => 0.08
    case EconomicSecurity | Environment => 0.07
  }

  /** A table has a weight for every dimension. */
  predicate Covers(w: DimensionWeights) {
    forall k: Dimension :: k in w
  }

  /** A table is a proper weighting: non-negative weights summing to 1. */
  predicate Normalised(w: DimensionWeights) {
    NonNegative(w, Dimensions) && Total(w, Dimensions) == 1.0
  }

  /** The enhanced weight table: fourteen positive entries summing to exactly 1. */
  function EnhancedWeights(): (w: DimensionWeights)
    ensures Covers(w)
    ensures Positive(w, Dimensions)
    ensures Total(w, Dimensions) == 1.0
  {
    var w := map k | k in Dimensions :: BaseWeight(k);
    assert Covers(w) && forall k: Dimension :: Get(w, k) == BaseWeight(k) by {
      DimensionsEnumerate();
    }
    BaseWeightsTotal(w);
    w
  }

  /** Each entry of the enhanced table is the dimension's base entry. */
  lemma EnhancedWeightsEntries()
    ensures forall k: Dimension :: EnhancedWeights()[k] == BaseWeight(k)
  {
    DimensionsEnumerate();
  }

  /** A table holding the base entries sums to 1 over the dimensions. */
  lemma BaseWeightsTotal(w: DimensionWeights)
    requires forall k: Dimension :: Get(w, k) == BaseWeight(k)
    ensures Total(w, Dimensions) == 1.0
  {
    TotalOfDimensions(w);
  }

  /** The total of a table over the fourteen dimensions, written out entry by entry. */
  lemma TotalOfDimensions(w: DimensionWeights)
    ensures Total(w, Dimensions) ==
      Get(w, Nutrition) + Get(w, ChildMortality) + Get(w, YearsSchooling) + Get(w, SchoolAttendance)
      + Get(w, Electricity) + Get(w, Sanitation) + Get(w, DrinkingWater) + Get(w, CookingFuel) + Get(w, Assets)
      + Get(w, Housing) + Get(w, Digital) + Get(w, Transport) + Get(w, EconomicSecurity) + Get(w, Environment)
  {
    TotalOfFourteen(w, Dimensions);
  }

  /** What each context input adds to a dimension's base entry before renormalisation. */
  function Adjustment(k: Dimension, harshness: real, urbanization: real, sprawl: real, digitalEconomy: real): real {
    match k
    case Electricity => 0.04 * harshness
    case CookingFuel => 0.02 * harshness
    case Housing => 0.03 * harshness
    case Sanitation | DrinkingWater => 0.04 * urbanization
    case Transport => 0.06 * sprawl
    case Digital => 0.05 * digitalEconomy
    case _ => 0.0
  }

  /** The adjusted table before renormalisation: the enhanced table with the seven adjusted entries raised. */
  function AdjustedRaw(harshness: real, urbanization: real, sprawl: real, digitalEconomy: real): DimensionWeights {
    Adjusted(EnhancedWeights(), harshness, urbanization, sprawl, digitalEconomy)
  }

  /** The seven in-place additions of the context adjustment, applied to a table that has every dimension. */
  function Adjusted(w0: DimensionWeights, harshness: real, urbanization: real, sprawl: real, digitalEconomy: real)
    : DimensionWeights
    requires Covers(w0)
  {
    var w1 := w0[Electricity := w0[Electricity] + 0.04 * harshness];
    var w2 := w1[CookingFuel := w1[CookingFuel] + 0.02 * harshness];
    var w3 := w2[Housing := w2[Housing] + 0.03 * harshness];
    var w4 := w3[Sanitation := w3[Sanitation] + 0.04 * urbanization];
    var w5 := w4[DrinkingWater := w4[DrinkingWater] + 0.04 * urbanization];
    var w6 := w5[Transport := w5[Transport] + 0.06 * sprawl];
    w6[Digital := w6[Digital] + 0.05 * digitalEconomy]
  }

  /** The total of the adjusted table before renormalisation: 1 plus the sum of the adjustments. */
  function AdjustedTotal(harshness: real, urbanization: real, sprawl: real, digitalEconomy: real): real {
    1.0 + 0.09 * harshness + 0.08 * urbanization + 0.06 * sprawl + 0.05 * digitalEconomy
  }

  /**
   * Every dimension is in the raw adjusted table with its base entry plus its
   * adjustment: only the seven adjusted dimensions differ from the enhanced table.
   */
  lemma AdjustedRawEntries(harshness: real, urbanization: real, sprawl: real, digitalEconomy: real)
    ensures Covers(AdjustedRaw(harshness, urbanization, sprawl, digitalEconomy))
    ensures forall k: Dimension ::
      Get(AdjustedRaw(harshness, urbanization, sprawl, digitalEconomy), k)
        == BaseWeight(k) + Adjustment(k, harshness, urbanization, sprawl, digitalEconomy)
  {
    forall k: Dimension
      ensures k in AdjustedRaw(harshness, urbanization, sprawl, digitalEconomy)
      ensures Get(AdjustedRaw(harshness, urbanization, sprawl, digitalEconomy), k)
        == BaseWeight(k) + Adjustment(k, harshness, urbanization, sprawl, digitalEconomy)
    {
      AdjustedRawEntry(k, harshness, urbanization, sprawl, digitalEconomy);
    }
  }

  /** One dimension's entry in the raw adjusted table. */
  lemma AdjustedRawEntry(k: Dimension, harshness: real, urbanization: real, sprawl: real, digitalEconomy: real)
    ensures k in AdjustedRaw(harshness, urbanization, sprawl, digitalEconomy)
    ensures AdjustedRaw(harshness, urbanization, sprawl, digitalEconomy)[k]
      == BaseWeight(k) + Adjustment(k, harshness, urbanization, sprawl, digitalEconomy)
  {
    EnhancedWeightsEntries();
    AdjustedEntry(EnhancedWeights(), k, harshness, urbanization, sprawl, digitalEconomy);
  }

  /** The adjustment adds to each entry exactly that dimension's adjustment. */
  lemma AdjustedEntry(w: DimensionWeights, k: Dimension, harshness: real, urbanization: real, sprawl: real, digitalEconomy: real)
    requires Covers(w)
    ensures k in Adjusted(w, harshness, urbanization, sprawl, digitalEconomy)
    ensures Adjusted(w, harshness, urbanization, sprawl, digitalEconomy)[k]
      == w[k] + Adjustment(k, harshness, urbanization, sprawl, digitalEconomy)
  {
  }

  /** A table of base entries plus adjustments totals `AdjustedTotal`. */
  lemma AdjustedRawTotal(w: DimensionWeights, harshness: real, urbanization: real, sprawl: real, digitalEconomy: real)
    requires forall k: Dimension :: Get(w, k) == BaseWeight(k) + Adjustment(k, harshness, urbanization, sprawl, digitalEconomy)
    ensures Total(w, Dimensions) == AdjustedTotal(harshness, urbanization, sprawl, digitalEconomy)
  {
    TotalOfDimensions(w);
  }

  /**
   * The context-adjusted weights: base entries plus the climate, urbanisation,
   * sprawl and digital-economy adjustments, divided by their total.
   */
  function ContextAdjustedWeights(harshness: real, urbanization: real, sprawl: real, digitalEconomy: real)
    : (r: DimensionWeights)
    requires AdjustedTotal(harshness, urbanization, sprawl, digitalEconomy) != 0.0
    ensures Covers(r)
    ensures Total(r, Dimensions) == 1.0
    ensures forall k: Dimension ::
      r[k] == (BaseWeight(k) + Adjustment(k, harshness, urbanization, sprawl, digitalEconomy))
        / AdjustedTotal(harshness, urbanization, sprawl, digitalEconomy)
    ensures 0.0 <= harshness && 0.0 <= urbanization && 0.0 <= sprawl && 0.0 <= digitalEconomy
      ==> Positive(r, Dimensions)
  {
    AdjustedRawEntries(harshness, urbanization, sprawl, digitalEconomy);
    NormalizedAdjusted(AdjustedRaw(harshness, urbanization, sprawl, digitalEconomy), harshness, urbanization, sprawl, digitalEconomy);
    Normalized(AdjustedRaw(harshness, urbanization, sprawl, digitalEconomy), AdjustedTotal(harshness, urbanization, sprawl, digitalEconomy))
  }

  /** Dividing a table of adjusted entries by their total gives a covering table that sums to 1. */
  lemma NormalizedAdjusted(raw: DimensionWeights, harshness: real, urbanization: real, sprawl: real, digitalEconomy: real)
    requires Covers(raw)
    requires forall k: Dimension :: Get(raw, k) == BaseWeight(k) + Adjustment(k, harshness, urbanization, sprawl, digitalEconomy)
    requires AdjustedTotal(harshness, urbanization, sprawl, digitalEconomy) != 0.0
    ensures var r := Normalized(raw, AdjustedTotal(harshness, urbanization, sprawl, digitalEconomy));
      && Covers(r)
      && Total(r, Dimensions) == 1.0
      && (forall k: Dimension ::
            r[k] == (BaseWeight(k) + Adjustment(k, harshness, urbanization, sprawl, digitalEconomy))
              / AdjustedTotal(harshness, urbanization, sprawl, digitalEconomy))
      && (0.0 <= harshness && 0.0 <= urbanization && 0.0 <= sprawl && 0.0 <= digitalEconomy ==>
            Positive(r, Dimensions))
  {
    AdjustedRawTotal(raw, harshness, urbanization, sprawl, digitalEconomy);
    NormalizedSumsToOne(raw, Dimensions);
    AdjustedRawPositive(raw, harshness, urbanization, sprawl, digitalEconomy);
  }

  /** With non-negative context inputs every adjusted entry is positive. */
  lemma AdjustedRawPositive(w: DimensionWeights, harshness: real, urbanization: real, sprawl: real, digitalEconomy: real)
    requires forall k: Dimension :: Get(w, k) == BaseWeight(k) + Adjustment(k, harshness, urbanization, sprawl, digitalEconomy)
    ensures 0.0 <= harshness && 0.0 <= urbanization && 0.0 <= sprawl && 0.0 <= digitalEconomy
      ==> Positive(w, Dimensions)
  {
  }

  /**
   * `get_context_adjusted_weights`: copy the enhanced table, add each adjustment in
   * place, then divide every entry by the new total. The rental-market input is
   * accepted and has no effect. The total must be non-zero (the source divides by it).
   */
  method GetContextAdjustedWeights(
    harshness: real, urbanization: real, sprawl: real := 0.5, digitalEconomy: real := 0.5,
    rentalTightness: real := 0.5)
    returns (r: DimensionWeights)
    requires AdjustedTotal(harshness, urbanization, sprawl, digitalEconomy) != 0.0
    ensures r == ContextAdjustedWeights(harshness, urbanization, sprawl, digitalEconomy)
  {
    var weights := EnhancedWeights();
    weights := AddContextAdjustments(weights, harshness, urbanization, sprawl, digitalEconomy);
    AdjustedRawEntries(harshness, urbanization, sprawl, digitalEconomy);
    var total := Total(weights, Dimensions);
    AdjustedRawTotal(weights, harshness, urbanization, sprawl, digitalEconomy);
    r := Normalized(weights, total);
  }

  /** The in-place additions of `get_context_adjusted_weights`, applied to a copy of a table with every dimension. */
  method AddContextAdjustments(w: DimensionWeights, harshness: real, urbanization: real, sprawl: real, digitalEconomy: real)
    returns (weights: DimensionWeights)
    requires Covers(w)
    ensures weights == Adjusted(w, harshness, urbanization, sprawl, digitalEconomy)
  {
    weights := w;
    weights := weights[Electricity := weights[Electricity] + 0.04 * harshness];
    weights := weights[CookingFuel := weights[CookingFuel] + 0.02 * harshness];
    weights := weights[Housing := weights[Housing] + 0.03 * harshness];
    weights := weights[Sanitation := weights[Sanitation] + 0.04 * urbanization];
    weights := weights[DrinkingWater := weights[DrinkingWater] + 0.04 * urbanization];
    weights := weights[Transport := weights[Transport] + 0.06 * sprawl];
    weights := weights[Digital := weights[Digital] + 0.05 * digitalEconomy];
  }

  /** Every adjusted entry before renormalisation keeps its enhanced-table value unless the dimension is one of the seven adjusted ones. */
  lemma AdjustedRawOnlySeven(harshness: real, urbanization: real, sprawl: real, digitalEconomy: real)
    ensures forall k: Dimension | k !in {Electricity, CookingFuel, Housing, Sanitation, DrinkingWater, Transport, Digital} ::
      AdjustedRaw(harshness, urbanization, sprawl, digitalEconomy)[k] == EnhancedWeights()[k]
  {
    AdjustedRawEntries(harshness, urbanization, sprawl, digitalEconomy);
    EnhancedWeightsEntries();
  }

  /** With every context input at 0 the adjusted table is the enhanced table, entry by entry. */
  lemma ContextAdjustedNeutral()
    ensures forall k: Dimension :: ContextAdjustedWeights(0.0, 0.0, 0.0, 0.0)[k] == EnhancedWeights()[k]
  {
    EnhancedWeightsEntries();
  }

  /** With non-negative context inputs, a dimension without an adjustment never gains weight. */
  lemma ContextAdjustmentDilutes(k: Dimension, harshness: real, urbanization: real, sprawl: real, digitalEconomy: real)
    requires 0.0 <= harshness && 0.0 <= urbanization && 0.0 <= sprawl && 0.0 <= digitalEconomy
    requires Adjustment(k, harshness, urbanization, sprawl, digitalEconomy) == 0.0
    ensures ContextAdjustedWeights(harshness, urbanization, sprawl, digitalEconomy)[k] <= EnhancedWeights()[k]
  {
    EnhancedWeightsEntries();
    DivideByAtLeastOne(BaseWeight(k), AdjustedTotal(harshness, urbanization, sprawl, digitalEconomy));
  }

  /** Dividing a non-negative number by something at least 1 never increases it. */
  lemma DivideByAtLeastOne(a: real, t: real)
    requires 0.0 <= a && 1.0 <= t
    ensures a / t <= a
  {
    var q := a / t;
    assert q * t == a;
    assert q * (t - 1.0) >= 0.0;
  }

  /**
   * `calculate_housing_subcomponent_weights`: structure 0.40 plus 0.10 per unit of
   * climate harshness, tenure 0.30, cost 0.30 plus 0.15 per unit of rental-market
   * tightness, each divided by their sum (which must be non-zero: the source divides by it).
   */
  function HousingSubcomponentWeights(harshness: real, rentalTightness: real): (r: HousingWeights)
    requires HousingTotal(harshness, rentalTightness) != 0.0
    ensures r.structure + r.tenure + r.cost == 1.0
    ensures r.structure * HousingTotal(harshness, rentalTightness) == 0.4 + 0.1 * harshness
    ensures r.tenure * HousingTotal(harshness, rentalTightness) == 0.3
    ensures r.cost * HousingTotal(harshness, rentalTightness) == 0.3 + 0.15 * rentalTightness
    ensures 0.0 <= harshness && 0.0 <= rentalTightness ==>
      r.Convex() && 0.0 < r.structure && 0.0 < r.tenure && 0.0 < r.cost
    ensures harshness == 0.0 && rentalTightness == 0.0 ==> r == DefaultHousingWeights()
  {
    var structureWeight := 0.40 + 0.10 * harshness;
    var tenureWeight := 0.30;
    var costWeight := 0.30 + 0.15 * rentalTightness;
    var total := structureWeight + tenureWeight + costWeight;
    SharesSumToOne(structureWeight, tenureWeight, costWeight);
    HousingWeights(structureWeight / total, tenureWeight / total, costWeight / total)
  }

  /** The sum the housing sub-weights are divided by. */
  function HousingTotal(harshness: real, rentalTightness: real): real {
    1.0 + 0.1 * harshness + 0.15 * rentalTightness
  }

  /** Three parts divided by their non-zero sum add up to 1. */
  lemma SharesSumToOne(a: real, b: real, c: real)
    requires a + b + c != 0.0
    ensures a / (a + b + c) + b / (a + b + c) + c / (a + b + c) == 1.0
  {
    var t := a + b + c;
    DivideSum(a, b, t);
    DivideSum(a + b, c, t);
    DivideSelf(t);
  }

  /** In a harsher climate the structure share is strictly larger. */
  lemma StructureShareRises(h1: real, h2: real, rentalTightness: real)
    requires 0.0 <= h1 < h2 && 0.0 <= rentalTightness
    ensures HousingSubcomponentWeights(h1, rentalTightness).structure
      < HousingSubcomponentWeights(h2, rentalTightness).structure
  {
    var a1, a2 := 0.4 + 0.1 * h1, 0.4 + 0.1 * h2;
    var t1, t2 := HousingTotal(h1, rentalTightness), HousingTotal(h2, rentalTightness);
    assert a2 * t1 - a1 * t2 == 0.1 * (h2 - h1) * (0.6 + 0.15 * rentalTightness);
    PositiveProduct(0.1 * (h2 - h1), 0.6 + 0.15 * rentalTightness);
    FractionLess(a1, t1, a2, t2);
  }

  /** In a tighter rental market the cost share is strictly larger. */
  lemma CostShareRises(harshness: real, r1: real, r2: real)
    requires 0.0 <= harshness && 0.0 <= r1 < r2
    ensures HousingSubcomponentWeights(harshness, r1).cost < HousingSubcomponentWeights(harshness, r2).cost
  {
    var a1, a2 := 0.3 + 0.15 * r1, 0.3 + 0.15 * r2;
    var t1, t2 := HousingTotal(harshness, r1), HousingTotal(harshness, r2);
    assert a2 * t1 - a1 * t2 == 0.15 * (r2 - r1) * (0.7 + 0.1 * harshness);
    PositiveProduct(0.15 * (r2 - r1), 0.7 + 0.1 * harshness);
    FractionLess(a1, t1, a2, t2);
  }

  /** The fourteen dimension values of a record, housing under the sub-weights `hw`. */
  function ComponentsOf(d: EnhancedDeprivationScore, hw: HousingWeights): Dimension -> real {
    k => d.Component(k, hw)
  }

  /** The enhanced deprivation score: weight × dimension value, summed over the fourteen dimensions. */
  function EnhancedScore(d: EnhancedDeprivationScore, w: DimensionWeights, hw: HousingWeights): real {
    Dot(w, ComponentsOf(d, hw), Dimensions)
  }

  /** A weight lookup that found no entry: Python's `KeyError` for the key `Name(dimension)`. */
  datatype WeightError = MissingWeight(dimension: Dimension)

  /** `e` reports the first dimension, in scoring order, that `w` has no entry for. */
  predicate ReportsFirstMissing(w: DimensionWeights, e: WeightError) {
    exists n | 0 <= n < |Dimensions| ::
      && Dimensions[n] !in w
      && e == MissingWeight(Dimensions[n])
      && forall m | 0 <= m < n :: Dimensions[m] in w
  }

  /**
   * `EnhancedMPICalculator.calculate_deprivation_score`: accumulate weight × value
   * over the nine plain dimensions in a loop, then add housing under its sub-weights
   * and the four composites one by one. The weights default to the enhanced table and
   * the sub-weights to 0.4/0.3/0.3; a dimension without a weight stops the sum with
   * the error the first failing lookup raises.
   */
  method CalculateEnhancedScore(
    d: EnhancedDeprivationScore, weights: Option<DimensionWeights> := None,
    housingWeights: Option<HousingWeights> := None)
    returns (r: Result<real, WeightError>)
    ensures r.Success? <==> Covers(weights.GetOr(EnhancedWeights()))
    ensures r.Success? ==>
      r.value == EnhancedScore(d, weights.GetOr(EnhancedWeights()), housingWeights.GetOr(DefaultHousingWeights()))
    ensures r.Failure? ==> ReportsFirstMissing(weights.GetOr(EnhancedWeights()), r.error)
  {
    var w := if weights.None? then EnhancedWeights() else weights.value;
    var hw := if housingWeights.None? then DefaultHousingWeights() else housingWeights.value;
    r := ScoreWith(d, w, hw);
  }

  /** The accumulation of `calculate_deprivation_score` once the tables in force are fixed. */
  method ScoreWith(d: EnhancedDeprivationScore, w: DimensionWeights, hw: HousingWeights)
    returns (r: Result<real, WeightError>)
    ensures r.Success? <==> Covers(w)
    ensures r.Success? ==> r.value == EnhancedScore(d, w, hw)
    ensures r.Failure? ==> ReportsFirstMissing(w, r.error)
  {
    var simple := AccumulateSimple(d, w, hw);
    if simple.Failure? {
      return Failure(simple.error);
    }
    var score := simple.value;
    var housingDeprivation :=
      hw.structure * d.housing.structureQuality + hw.tenure * d.housing.tenureSecurity + hw.cost * d.housing.costBurden;
    if Housing !in w {
      FirstMissing(w, 9);
      return Failure(MissingWeight(Housing));
    }
    score := score + w[Housing] * housingDeprivation;
    if Digital !in w {
      FirstMissing(w, 10);
      return Failure(MissingWeight(Digital));
    }
    score := score + w[Digital] * d.digital.CompositeScore();
    if Transport !in w {
      FirstMissing(w, 11);
      return Failure(MissingWeight(Transport));
    }
    score := score + w[Transport] * d.transport.CompositeScore();
    if EconomicSecurity !in w {
      FirstMissing(w, 12);
      return Failure(MissingWeight(EconomicSecurity));
    }
    score := score + w[EconomicSecurity] * d.economicSecurity.CompositeScore();
    if Environment !in w {
      FirstMissing(w, 13);
      return Failure(MissingWeight(Environment));
    }
    score := score + w[Environment] * d.environment.CompositeScore();
    ScoreOfParts(d, w, hw);
    CoveredByPrefix(w);
    r := Success(score);
  }

  /** The loop of `calculate_deprivation_score` over the nine plain dimensions, in order. */
  method AccumulateSimple(d: EnhancedDeprivationScore, w: DimensionWeights, hw: HousingWeights)
    returns (r: Result<real, WeightError>)
    ensures r.Success? <==> forall m | 0 <= m < 9 :: Dimensions[m] in w
    ensures r.Success? ==> r.value == Dot(w, ComponentsOf(d, hw), Dimensions[..9])
    ensures r.Failure? ==> ReportsFirstMissing(w, r.error)
  {
    ghost var v := ComponentsOf(d, hw);
    assert SimpleDimensions == Dimensions[..9];
    var score := 0.0;
    for n := 0 to |SimpleDimensions|
      invariant score == Dot(w, v, Dimensions[..n])
      invariant forall m | 0 <= m < n :: Dimensions[m] in w
    {
      var k := SimpleDimensions[n];
      if k !in w {
        FirstMissing(w, n);
        return Failure(MissingWeight(k));
      }
      DotStepWith(w, v, Dimensions, n, d.Component(k, hw));
      score := score + w[k] * d.Component(k, hw);
    }
    return Success(score);
  }

  /** The enhanced score split as the method computes it: the nine plain dimensions, then housing and the four composites. */
  lemma ScoreOfParts(d: EnhancedDeprivationScore, w: DimensionWeights, hw: HousingWeights)
    requires Housing in w && Digital in w && Transport in w && EconomicSecurity in w && Environment in w
    ensures EnhancedScore(d, w, hw) == Dot(w, ComponentsOf(d, hw), Dimensions[..9])
      + w[Housing] * (hw.structure * d.housing.structureQuality + hw.tenure * d.housing.tenureSecurity
                      + hw.cost * d.housing.costBurden)
      + w[Digital] * d.digital.CompositeScore()
      + w[Transport] * d.transport.CompositeScore()
      + w[EconomicSecurity] * d.economicSecurity.CompositeScore()
      + w[Environment] * d.environment.CompositeScore()
  {
    DotAfterNine(w, ComponentsOf(d, hw), Dimensions);
  }

  /** The first dimension without an entry is the one reported. */
  lemma FirstMissing(w: DimensionWeights, n: nat)
    requires n < |Dimensions| && Dimensions[n] !in w
    requires forall m | 0 <= m < n :: Dimensions[m] in w
    ensures ReportsFirstMissing(w, MissingWeight(Dimensions[n]))
  {
  }

  /** A table with an entry for each listed dimension has an entry for every dimension. */
  lemma CoveredByPrefix(w: DimensionWeights)
    requires forall m | 0 <= m < |Dimensions| :: Dimensions[m] in w
    ensures Covers(w)
  {
    forall k: Dimension
      ensures k in w
    {
      DimensionsEnumerate();
      assert k in Dimensions;
    }
  }

  /** The cutoff of the enhanced index, kept at the standard 0.33 for comparability. */
  const EnhancedPovertyCutoff: real := 0.33

  /**
   * `EnhancedMPICalculator.calculate_household_mpi`: score the household, then classify
   * it and compute its intensity against one cutoff (0.33 unless given).
   */
  method CalculateEnhancedHouseholdMpi(
    h: EnhancedHousehold, weights: Option<DimensionWeights> := None,
    housingWeights: Option<HousingWeights> := None, cutoff: Option<real> := None)
    returns (r: Result<Mpi.HouseholdResult, WeightError>)
    ensures r.Success? <==> Covers(weights.GetOr(EnhancedWeights()))
    ensures r.Success? ==>
      && r.value.deprivationScore
         == EnhancedScore(h.deprivations, weights.GetOr(EnhancedWeights()), housingWeights.GetOr(DefaultHousingWeights()))
      && Mpi.ClassifiedAgainst(r.value, cutoff.GetOr(EnhancedPovertyCutoff))
    ensures r.Failure? ==> ReportsFirstMissing(weights.GetOr(EnhancedWeights()), r.error)
  {
    var scored := CalculateEnhancedScore(h.deprivations, weights, housingWeights);
    if scored.Failure? {
      return Failure(scored.error);
    }
    var score := scored.value;
    var c := if cutoff.None? then EnhancedPovertyCutoff else cutoff.value;
    var isPoor := score >= c;
    var intensity := if isPoor then score else 0.0;
    r := Success(Mpi.HouseholdResult(score, isPoor, intensity));
  }

  /** Each dimension value of a fully valid record lies in [0, 1] under convex sub-weights. */
  lemma ComponentInUnit(d: EnhancedDeprivationScore, k: Dimension, hw: HousingWeights)
    requires d.Valid() && hw.Convex()
    ensures InUnit(d.Component(k, hw))
  {
    match k
    case Housing =>
    case Digital =>
    case Transport =>
    case EconomicSecurity =>
    case Environment =>
    case _ =>
      assert k in SimpleDimensions && d.Component(k, hw) == d.PlainValue(k);
  }

  /** A fully valid record under a proper weighting and convex sub-weights scores in [0, 1]. */
  lemma EnhancedScoreInUnit(d: EnhancedDeprivationScore, w: DimensionWeights, hw: HousingWeights)
    requires d.Valid() && Normalised(w) && hw.Convex()
    ensures InUnit(EnhancedScore(d, w, hw))
  {
    forall k | k in Dimensions
      ensures InUnit(ComponentsOf(d, hw)(k))
    {
      ComponentInUnit(d, k, hw);
    }
    DotBounds(w, ComponentsOf(d, hw), Dimensions);
  }

  /** Under non-negative weights, a record at least as deprived in every dimension scores at least as high. */
  lemma EnhancedScoreMonotone(d1: EnhancedDeprivationScore, d2: EnhancedDeprivationScore, w: DimensionWeights, hw: HousingWeights)
    requires NonNegative(w, Dimensions)
    requires forall k: Dimension :: d1.Component(k, hw) <= d2.Component(k, hw)
    ensures EnhancedScore(d1, w, hw) <= EnhancedScore(d2, w, hw)
  {
    DotMonotone(w, ComponentsOf(d1, hw), ComponentsOf(d2, hw), Dimensions);
  }

  /** A record deprived in no dimension scores 0 under every table. */
  lemma EnhancedScoreOfNoDeprivation(d: EnhancedDeprivationScore, w: DimensionWeights, hw: HousingWeights)
    requires forall k: Dimension :: d.Component(k, hw) == 0.0
    ensures EnhancedScore(d, w, hw) == 0.0
  {
    DotOfZeros(w, ComponentsOf(d, hw), Dimensions);
  }

  /** A record fully deprived in every dimension scores the table's total weight. */
  lemma EnhancedScoreOfFullDeprivation(d: EnhancedDeprivationScore, w: DimensionWeights, hw: HousingWeights)
    requires forall k: Dimension :: d.Component(k, hw) == 1.0
    ensures EnhancedScore(d, w, hw) == Total(w, Dimensions)
  {
    DotOfOnes(w, ComponentsOf(d, hw), Dimensions);
  }

  /** Without explicit sub-weights, housing contributes its weight times the housing composite score. */
  lemma DefaultHousingContribution(d: EnhancedDeprivationScore, w: DimensionWeights)
    ensures Term(w, ComponentsOf(d, DefaultHousingWeights()), Housing) == Get(w, Housing) * d.housing.CompositeScore()
  {
  }
}
