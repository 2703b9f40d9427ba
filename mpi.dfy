/**
 * The standard Multidimensional Poverty Index of the Alkire–Foster method
 * (models/mpi.py): ten indicators, a fixed weight table, a weighted
 * deprivation score, poor / not-poor classification against a cutoff, the
 * population aggregates H, A and MPI = H × A, and the comparison of the
 * standard weighting with an adjusted one.
 */
module Mpi {
  import opened Outcomes
  import opened Tables

  /** The ten indicators, grouped into health, education and living standards. */
  datatype Indicator =
    | Nutrition | ChildMortality
    | YearsSchooling | SchoolAttendance
    | Electricity | Sanitation | DrinkingWater | Flooring | CookingFuel | Assets

  /** The indicators in declaration order (also the key order of the standard weight table). */
  const Indicators: seq<Indicator> :=
    [Nutrition, ChildMortality, YearsSchooling, SchoolAttendance,
     Electricity, Sanitation, DrinkingWater, Flooring, CookingFuel, Assets]

  /** The field name an indicator has in the record, as reported in range errors. */
  function Name(i: Indicator): string {
    match i
    case Nutrition => "nutrition"
    case ChildMortality => "child_mortality"
    case YearsSchooling => "years_schooling"
    case SchoolAttendance => "school_attendance"
    case Electricity => "electricity"
    case Sanitation => "sanitation"
    case DrinkingWater => "drinking_water"
    case Flooring => "flooring"
    case CookingFuel => "cooking_fuel"
    case Assets => "assets"
  }

  /** Every indicator occurs in `Indicators`, exactly once. */
  lemma IndicatorsEnumerate()
    ensures forall i: Indicator :: i in Indicators
    ensures forall m, n | 0 <= m < n < |Indicators| :: Indicators[m] != Indicators[n]
  {
    forall i: Indicator ensures i in Indicators {
      match i
      case Nutrition => assert Indicators[0] == i;
      case ChildMortality => assert Indicators[1] == i;
      case YearsSchooling => assert Indicators[2] == i;
      case SchoolAttendance => assert Indicators[3] == i;
      case Electricity => assert Indicators[4] == i;
      case Sanitation => assert Indicators[5] == i;
      case DrinkingWater => assert Indicators[6] == i;
      case Flooring => assert Indicators[7] == i;
      case CookingFuel => assert Indicators[8] == i;
      case Assets => assert Indicators[9] == i;
    }
  }

  /** Per-indicator deprivation values of one household: 0 = not deprived, 1 = deprived. */
  datatype DeprivationScore = DeprivationScore(
    nutrition: real, childMortality: real,
    yearsSchooling: real, schoolAttendance: real,
    electricity: real, sanitation: real, drinkingWater: real,
    flooring: real, cookingFuel: real, assets: real)
  {
    /** The value of one indicator (the `getattr(deprivations, indicator)` lookup). */
    function Value(i: Indicator): real {
      match i
      case Nutrition => nutrition
      case ChildMortality => childMortality
      case YearsSchooling => yearsSchooling
      case SchoolAttendance => schoolAttendance
      case Electricity => electricity
      case Sanitation => sanitation
      case DrinkingWater => drinkingWater
      case Flooring => flooring
      case CookingFuel => cookingFuel
      case Assets => assets
    }

    /** The record invariant that construction enforces: every field lies in [0, 1]. */
    predicate Valid() {
      forall i | i in Indicators :: InUnit(Value(i))
    }
  }

  /** The indicator values of a record, as a function to weigh. */
  function ValuesOf(d: DeprivationScore): Indicator -> real {
    i => d.Value(i)
  }

  /**
   * Construction of a `DeprivationScore`: the fields are checked in declaration
   * order and the first one outside [0, 1] is reported; a record whose fields all
   * lie in [0, 1] is accepted unchanged.
   */
  method NewDeprivationScore(d: DeprivationScore) returns (r: Result<DeprivationScore, RangeError>)
    ensures r.Success? <==> d.Valid()
    ensures r.Success? ==> r.value == d
    ensures r.Failure? ==>
      exists n | 0 <= n < |Indicators| ::
        && !InUnit(d.Value(Indicators[n]))
        && r.error == OutOfRange(Name(Indicators[n]), d.Value(Indicators[n]))
        && forall m | 0 <= m < n :: InUnit(d.Value(Indicators[m]))
  {
    for n := 0 to |Indicators|
      invariant forall m | 0 <= m < n :: InUnit(d.Value(Indicators[m]))
    {
      var value := d.Value(Indicators[n]);
      if !(0.0 <= value <= 1.0) {
        return Failure(OutOfRange(Name(Indicators[n]), value));
      }
    }
    return Success(d);
  }

  /** Weight tables map indicators to weights; an indicator the table lacks is not scored. */
  type WeightTable = map<Indicator, real>

  /**
   * The standard Alkire–Foster weights: health and education 1/3 each, split
   * equally over two indicators (1/6), living standards 1/3 split over six (1/18).
   */
  function StandardWeights(): (w: WeightTable)
    ensures Covers(w)
    ensures NonNegative(w, Indicators)
    ensures Total(w, Indicators) == 1.0
  {
    var w := map i | i in Indicators :: StandardWeight(i);
    assert Covers(w) && forall i: Indicator :: Get(w, i) == StandardWeight(i) by {
      IndicatorsEnumerate();
    }
    StandardWeightsTotal(w);
    w
  }

  /** The entry of the standard table for one indicator. */
  function StandardWeight(i: Indicator): real {
    match i
    case Nutrition | ChildMortality | YearsSchooling | SchoolAttendance => 1.0 / 6.0
    case Electricity | Sanitation | DrinkingWater | Flooring | CookingFuel | Assets => 1.0 / 18.0
  }

  /** A table holding the standard entries sums to 1 over the indicators (4 × 1/6 + 6 × 1/18). */
  lemma StandardWeightsTotal(w: WeightTable)
    requires forall i: Indicator :: Get(w, i) == StandardWeight(i)
    ensures Total(w, Indicators) == 1.0
  {
    TotalOfIndicators(w);
  }

  /** A table has a weight for every indicator. */
  predicate Covers(w: WeightTable) {
    forall i: Indicator :: i in w
  }

  /** The total of a table over the indicators, written out entry by entry. */
  lemma TotalOfIndicators(w: WeightTable)
    ensures Total(w, Indicators) ==
      Get(w, Nutrition) + Get(w, ChildMortality) + Get(w, YearsSchooling) + Get(w, SchoolAttendance)
      + Get(w, Electricity) + Get(w, Sanitation) + Get(w, DrinkingWater) + Get(w, Flooring)
      + Get(w, CookingFuel) + Get(w, Assets)
  {
    TotalOfTen(w, Indicators);
  }

  /** The weighted score, written out indicator by indicator. */
  lemma WeightedScoreOfIndicators(d: DeprivationScore, w: WeightTable)
    ensures WeightedScore(d, w) ==
      Get(w, Nutrition) * d.nutrition + Get(w, ChildMortality) * d.childMortality
      + Get(w, YearsSchooling) * d.yearsSchooling + Get(w, SchoolAttendance) * d.schoolAttendance
      + Get(w, Electricity) * d.electricity + Get(w, Sanitation) * d.sanitation
      + Get(w, DrinkingWater) * d.drinkingWater + Get(w, Flooring) * d.flooring
      + Get(w, CookingFuel) * d.cookingFuel + Get(w, Assets) * d.assets
  {
    var v := ValuesOf(d);
    DotOfTen(w, v, Indicators);
  }

  /** The standard cutoff: a household is poor when its score reaches 0.33. */
  const PovertyCutoff: real := 0.33

  /** The cutoff in force: the one given, else the standard 0.33. */
  function EffectiveCutoff(cutoff: Option<real>): (c: real)
    ensures cutoff.None? ==> c == PovertyCutoff
    ensures cutoff.Some? ==> c == cutoff.value
  {
    cutoff.GetOr(PovertyCutoff)
  }

  /** A table is a proper weighting: non-negative weights that sum to 1 over the indicators. */
  predicate Normalised(w: WeightTable) {
    NonNegative(w, Indicators) && Total(w, Indicators) == 1.0
  }

  /** Weighted deprivation score: the sum over the table's entries of weight × indicator value. */
  function WeightedScore(d: DeprivationScore, w: WeightTable): real {
    Dot(w, ValuesOf(d), Indicators)
  }

  /**
   * `calculate_deprivation_score`: accumulate weight × value over the entries of the
   * table given, or of the standard table when none is given.
   */
  method CalculateDeprivationScore(d: DeprivationScore, weights: Option<WeightTable> := None)
    returns (score: real)
    ensures score == WeightedScore(d, weights.GetOr(StandardWeights()))
    ensures d.Valid() && Normalised(weights.GetOr(StandardWeights())) ==> InUnit(score)
  {
    var w := if weights.None? then StandardWeights() else weights.value;
    score := 0.0;
    for n := 0 to |Indicators|
      invariant score == Dot(w, ValuesOf(d), Indicators[..n])
    {
      var indicator := Indicators[n];
      DotStep(w, ValuesOf(d), Indicators, n);
      if indicator in w {
        score := score + w[indicator] * d.Value(indicator);
      }
    }
    assert Indicators[..|Indicators|] == Indicators;
    if d.Valid() && Normalised(w) {
      ScoreInUnit(d, w);
    }
  }

  /** For a valid record and a proper weighting, the score lies in [0, 1]. */
  lemma ScoreInUnit(d: DeprivationScore, w: WeightTable)
    requires d.Valid() && Normalised(w)
    ensures InUnit(WeightedScore(d, w))
  {
    DotBounds(w, ValuesOf(d), Indicators);
  }

  /** A household deprived in nothing scores 0 under every table. */
  lemma ScoreOfNoDeprivation(d: DeprivationScore, w: WeightTable)
    requires forall i: Indicator :: d.Value(i) == 0.0
    ensures WeightedScore(d, w) == 0.0
  {
    DotOfZeros(w, ValuesOf(d), Indicators);
  }

  /** A household deprived in everything scores the table's total weight (1 for a proper weighting). */
  lemma ScoreOfFullDeprivation(d: DeprivationScore, w: WeightTable)
    requires forall i: Indicator :: d.Value(i) == 1.0
    ensures WeightedScore(d, w) == Total(w, Indicators)
  {
    DotOfOnes(w, ValuesOf(d), Indicators);
  }

  /** `is_poor`: the score reaches the cutoff (0.33 when none is given). */
  function IsPoor(score: real, cutoff: Option<real> := None): (poor: bool)
    ensures poor <==> EffectiveCutoff(cutoff) <= score
  {
    score >= EffectiveCutoff(cutoff)
  }

  /** `calculate_intensity`: the score for a poor household, 0 otherwise. */
  function Intensity(score: real, cutoff: Option<real> := None): (r: real)
    ensures IsPoor(score, cutoff) ==> r == score
    ensures !IsPoor(score, cutoff) ==> r == 0.0
  {
    if score >= EffectiveCutoff(cutoff) then score else 0.0
  }

  /** Raising the score never turns a poor household non-poor; raising the cutoff never turns a non-poor one poor. */
  lemma IsPoorMonotone(s1: real, s2: real, c1: real, c2: real)
    requires s1 <= s2 && c2 <= c1
    ensures IsPoor(s1, Some(c1)) ==> IsPoor(s2, Some(c2))
  {
  }

  /** Per-household result: its score, whether it is poor, and its intensity. */
  datatype HouseholdResult = HouseholdResult(deprivationScore: real, isPoor: bool, intensity: real)

  /** A result is classified against `cutoff`: poor iff the score reaches it, intensity the score iff poor. */
  predicate ClassifiedAgainst(r: HouseholdResult, cutoff: real) {
    && (r.isPoor <==> cutoff <= r.deprivationScore)
    && r.intensity == (if r.isPoor then r.deprivationScore else 0.0)
  }

  /** A household of the population (identifiers and size are carried, not scored). */
  datatype Household = Household(
    householdId: string, cellId: string, deprivations: DeprivationScore, householdSize: int,
    numChildren: Option<int>, numElderly: Option<int>)

  /**
   * `calculate_household_mpi`: score the household, and classify it and compute its
   * intensity against one and the same cutoff.
   */
  function HouseholdMpi(h: Household, weights: Option<WeightTable> := None, cutoff: Option<real> := None)
    : (r: HouseholdResult)
    ensures r.deprivationScore == WeightedScore(h.deprivations, weights.GetOr(StandardWeights()))
    ensures ClassifiedAgainst(r, EffectiveCutoff(cutoff))
  {
    var score := WeightedScore(h.deprivations, weights.GetOr(StandardWeights()));
    HouseholdResult(score, IsPoor(score, cutoff), Intensity(score, cutoff))
  }

  /** The per-household results of a population, in order. */
  function Results(hs: seq<Household>, weights: Option<WeightTable>, cutoff: Option<real>)
    : (rs: seq<HouseholdResult>)
    ensures |rs| == |hs|
    ensures forall n | 0 <= n < |hs| :: rs[n] == HouseholdMpi(hs[n], weights, cutoff)
  {
    seq(|hs|, n requires 0 <= n < |hs| => HouseholdMpi(hs[n], weights, cutoff))
  }

  /** Number of poor results. */
  function CountPoor(rs: seq<HouseholdResult>): (k: nat)
    ensures k <= |rs|
  {
    if rs == [] then 0
    else CountPoor(rs[..|rs| - 1]) + (if rs[|rs| - 1].isPoor then 1 else 0)
  }

  /** Sum of the intensities of the poor results. */
  function PoorIntensitySum(rs: seq<HouseholdResult>): real {
    if rs == [] then 0.0
    else PoorIntensitySum(rs[..|rs| - 1]) + (if rs[|rs| - 1].isPoor then rs[|rs| - 1].intensity else 0.0)
  }

  /** Sum of all scores. */
  function ScoreSum(rs: seq<HouseholdResult>): real {
    if rs == [] then 0.0
    else ScoreSum(rs[..|rs| - 1]) + rs[|rs| - 1].deprivationScore
  }

  /** Each poor household contributes at least the cutoff to the poor-intensity sum. */
  lemma {:induction false} PoorIntensityAtLeastCutoff(rs: seq<HouseholdResult>, cutoff: real)
    requires forall n | 0 <= n < |rs| :: ClassifiedAgainst(rs[n], cutoff)
    ensures PoorIntensitySum(rs) >= CountPoor(rs) as real * cutoff
  {
    if rs != [] {
      PoorIntensityAtLeastCutoff(rs[..|rs| - 1], cutoff);
    }
  }

  /** When no score exceeds 1, each poor household contributes at most 1. */
  lemma {:induction false} PoorIntensityAtMostCount(rs: seq<HouseholdResult>, cutoff: real)
    requires forall n | 0 <= n < |rs| :: ClassifiedAgainst(rs[n], cutoff) && rs[n].deprivationScore <= 1.0
    ensures PoorIntensitySum(rs) <= CountPoor(rs) as real
  {
    if rs != [] {
      PoorIntensityAtMostCount(rs[..|rs| - 1], cutoff);
    }
  }

  /** Population aggregates; `avgDeprivationScore` is absent for an empty population, as in the source. */
  datatype PopulationResult = PopulationResult(
    mpi: real, headcountRatio: real, intensity: real, numPoor: nat, totalPopulation: nat,
    avgDeprivationScore: Option<real>)

  /**
   * The population aggregates of a sequence of per-household results. An empty
   * sequence gives the all-zero result. Otherwise H is the share of poor
   * households, A the mean intensity of the poor households only (0 when there
   * are none), and MPI = H × A, which is also the mean censored score
   * (intensities summed over all households, divided by their number).
   */
  function Aggregate(rs: seq<HouseholdResult>): (r: PopulationResult)
    ensures rs == [] ==> r == PopulationResult(0.0, 0.0, 0.0, 0, 0, None)
    ensures r.totalPopulation == |rs| && r.numPoor == CountPoor(rs) <= r.totalPopulation
    ensures rs != [] ==> r.headcountRatio == r.numPoor as real / r.totalPopulation as real
    ensures 0.0 <= r.headcountRatio <= 1.0
    ensures r.numPoor == 0 ==> r.intensity == 0.0
    ensures r.numPoor > 0 ==> r.intensity == PoorIntensitySum(rs) / CountPoor(rs) as real
    ensures r.mpi == r.headcountRatio * r.intensity
    ensures rs != [] ==> r.mpi == PoorIntensitySum(rs) / |rs| as real
    ensures rs != [] ==> r.avgDeprivationScore == Some(ScoreSum(rs) / |rs| as real)
  {
    if rs == [] then PopulationResult(0.0, 0.0, 0.0, 0, 0, None)
    else if CountPoor(rs) == 0 then
      PoorIntensityOfNonPoor(rs);
      Summarise(0, 0.0, ScoreSum(rs), |rs|)
    else
      Summarise(CountPoor(rs), PoorIntensitySum(rs), ScoreSum(rs), |rs|)
  }

  /** `calculate_population_mpi`: the aggregates of the households' individual results. */
  method CalculatePopulationMpi(
    households: seq<Household>, weights: Option<WeightTable> := None, cutoff: Option<real> := None)
    returns (r: PopulationResult)
    ensures r == Aggregate(Results(households, weights, cutoff))
  {
    if households == [] {
      return PopulationResult(0.0, 0.0, 0.0, 0, 0, None);
    }
    var numPoor, poorIntensity, scoreSum := TallyResults(households, weights, cutoff);
    if numPoor == 0 {
      PoorIntensityOfNonPoor(Results(households, weights, cutoff));
    }
    r := Summarise(numPoor, poorIntensity, scoreSum, |households|);
  }

  /** A, the mean intensity of the poor households, is at least the cutoff. */
  lemma IntensityAtLeastCutoff(hs: seq<Household>, weights: Option<WeightTable>, cutoff: Option<real>)
    requires CountPoor(Results(hs, weights, cutoff)) > 0
    ensures Aggregate(Results(hs, weights, cutoff)).intensity >= EffectiveCutoff(cutoff)
  {
    ResultsIntensityAtLeastCutoff(hs, weights, cutoff);
    AggregateIntensityAtLeast(Results(hs, weights, cutoff), EffectiveCutoff(cutoff));
  }

  /** A is at most 1 when no household scores above 1. */
  lemma IntensityAtMostOne(hs: seq<Household>, weights: Option<WeightTable>, cutoff: Option<real>)
    requires ScoresAtMostOne(Results(hs, weights, cutoff))
    ensures Aggregate(Results(hs, weights, cutoff)).intensity <= 1.0
  {
    ResultsIntensityAtMostCount(hs, weights, cutoff);
    AggregateIntensityAtMostOne(Results(hs, weights, cutoff));
  }

  /** Over a population's results, the poor contribute at least the cutoff each. */
  lemma ResultsIntensityAtLeastCutoff(hs: seq<Household>, weights: Option<WeightTable>, cutoff: Option<real>)
    ensures PoorIntensitySum(Results(hs, weights, cutoff))
      >= CountPoor(Results(hs, weights, cutoff)) as real * EffectiveCutoff(cutoff)
  {
    PoorIntensityAtLeastCutoff(Results(hs, weights, cutoff), EffectiveCutoff(cutoff));
  }

  /** Over a population's results with no score above 1, the poor contribute at most 1 each. */
  lemma ResultsIntensityAtMostCount(hs: seq<Household>, weights: Option<WeightTable>, cutoff: Option<real>)
    requires ScoresAtMostOne(Results(hs, weights, cutoff))
    ensures PoorIntensitySum(Results(hs, weights, cutoff)) <= CountPoor(Results(hs, weights, cutoff)) as real
  {
    PoorIntensityAtMostCount(Results(hs, weights, cutoff), EffectiveCutoff(cutoff));
  }

  /** A poor-intensity sum of at least c per poor result gives A >= c. */
  lemma AggregateIntensityAtLeast(rs: seq<HouseholdResult>, c: real)
    requires CountPoor(rs) > 0
    requires PoorIntensitySum(rs) >= CountPoor(rs) as real * c
    ensures Aggregate(rs).intensity >= c
  {
    MeanOfPoorAtLeast(rs, c);
  }

  /** The mean of the poor intensities, when their sum is at least c per poor result. */
  lemma MeanOfPoorAtLeast(rs: seq<HouseholdResult>, c: real)
    requires CountPoor(rs) > 0
    requires PoorIntensitySum(rs) >= CountPoor(rs) as real * c
    ensures PoorIntensitySum(rs) / CountPoor(rs) as real >= c
  {
    MeanAtLeast(PoorIntensitySum(rs), CountPoor(rs) as real, c);
  }

  /** A poor-intensity sum of at most 1 per poor result gives A <= 1. */
  lemma AggregateIntensityAtMostOne(rs: seq<HouseholdResult>)
    requires PoorIntensitySum(rs) <= CountPoor(rs) as real
    ensures Aggregate(rs).intensity <= 1.0
  {
    if CountPoor(rs) > 0 {
      MeanAtMost(PoorIntensitySum(rs), CountPoor(rs) as real, 1.0);
    }
  }

  /** Valid records scored under a proper weighting never exceed 1. */
  lemma ValidScoresAtMostOne(hs: seq<Household>, weights: Option<WeightTable>, cutoff: Option<real>)
    requires forall n | 0 <= n < |hs| :: hs[n].deprivations.Valid()
    requires Normalised(weights.GetOr(StandardWeights()))
    ensures ScoresAtMostOne(Results(hs, weights, cutoff))
  {
    var rs := Results(hs, weights, cutoff);
    forall n | 0 <= n < |rs|
      ensures rs[n].deprivationScore <= 1.0
    {
      ScoreInUnit(hs[n].deprivations, weights.GetOr(StandardWeights()));
    }
  }

  /**
   * The aggregates from the tallies of a non-empty population of `total`
   * households: H = numPoor / total, A = poorIntensity / numPoor (0 without poor
   * households), MPI = H × A, and the mean score.
   */
  function Summarise(numPoor: nat, poorIntensity: real, scoreSum: real, total: nat): (r: PopulationResult)
    requires numPoor <= total && 0 < total
    requires numPoor == 0 ==> poorIntensity == 0.0
    ensures r.numPoor == numPoor && r.totalPopulation == total
    ensures r.headcountRatio == numPoor as real / total as real
    ensures 0.0 <= r.headcountRatio <= 1.0
    ensures numPoor == 0 ==> r.intensity == 0.0
    ensures numPoor > 0 ==> r.intensity == poorIntensity / numPoor as real
    ensures r.mpi == r.headcountRatio * r.intensity
    ensures r.mpi == poorIntensity / total as real
    ensures r.avgDeprivationScore == Some(scoreSum / total as real)
  {
    var headcountRatio := numPoor as real / total as real;
    var avgIntensity := if numPoor > 0 then poorIntensity / numPoor as real else 0.0;
    AtMostOne(numPoor as real, total as real);
    assert headcountRatio * avgIntensity == poorIntensity / total as real by {
      if numPoor > 0 {
        MeanTimesShare(poorIntensity, numPoor as real, total as real);
      }
    }
    PopulationResult(headcountRatio * avgIntensity, headcountRatio, avgIntensity, numPoor, total,
                     Some(scoreSum / total as real))
  }

  /**
   * The passes over the per-household results: the number of poor households,
   * the sum of their intensities, and the sum of all scores.
   */
  method TallyResults(households: seq<Household>, weights: Option<WeightTable>, cutoff: Option<real>)
    returns (numPoor: nat, poorIntensity: real, scoreSum: real)
    ensures numPoor == CountPoor(Results(households, weights, cutoff))
    ensures poorIntensity == PoorIntensitySum(Results(households, weights, cutoff))
    ensures scoreSum == ScoreSum(Results(households, weights, cutoff))
  {
    ghost var rs := Results(households, weights, cutoff);
    numPoor, poorIntensity, scoreSum := 0, 0.0, 0.0;
    for n := 0 to |households|
      invariant numPoor == CountPoor(rs[..n])
      invariant poorIntensity == PoorIntensitySum(rs[..n])
      invariant scoreSum == ScoreSum(rs[..n])
    {
      var result := HouseholdMpi(households[n], weights, cutoff);
      assert rs[..n + 1][..n] == rs[..n] && rs[..n + 1][n] == result;
      if result.isPoor {
        numPoor := numPoor + 1;
        poorIntensity := poorIntensity + result.intensity;
      }
      scoreSum := scoreSum + result.deprivationScore;
    }
    assert rs[..|households|] == rs;
  }

  /** No result scores above 1 (true of valid records under a proper weighting). */
  predicate ScoresAtMostOne(rs: seq<HouseholdResult>) {
    forall n | 0 <= n < |rs| :: rs[n].deprivationScore <= 1.0
  }

  /**
   * For valid records under a proper weighting, and whatever the cutoff, the
   * population intensity A and the index MPI = H × A both lie in [0, 1].
   */
  lemma AggregateInUnit(hs: seq<Household>, weights: Option<WeightTable>, cutoff: Option<real>)
    requires forall n | 0 <= n < |hs| :: hs[n].deprivations.Valid()
    requires Normalised(weights.GetOr(StandardWeights()))
    ensures var r := Aggregate(Results(hs, weights, cutoff));
      0.0 <= r.intensity <= 1.0 && 0.0 <= r.mpi <= 1.0
  {
    var rs := Results(hs, weights, cutoff);
    IntensityAtMostOne(hs, weights, cutoff) by { ValidScoresAtMostOne(hs, weights, cutoff); }
    ValidScoresNonNegative(hs, weights, cutoff);
    AggregateIntensityNonNegative(rs, EffectiveCutoff(cutoff));
    var r := Aggregate(rs);
    ProductBounds(r.intensity, r.headcountRatio);
  }

  /** Valid records scored under a proper weighting never fall below 0. */
  lemma ValidScoresNonNegative(hs: seq<Household>, weights: Option<WeightTable>, cutoff: Option<real>)
    requires forall n | 0 <= n < |hs| :: hs[n].deprivations.Valid()
    requires Normalised(weights.GetOr(StandardWeights()))
    ensures forall n | 0 <= n < |hs| :: 0.0 <= Results(hs, weights, cutoff)[n].deprivationScore
  {
    var rs := Results(hs, weights, cutoff);
    forall n | 0 <= n < |rs|
      ensures 0.0 <= rs[n].deprivationScore
    {
      ScoreInUnit(hs[n].deprivations, weights.GetOr(StandardWeights()));
    }
  }

  /** Classified results with no negative score give A >= 0. */
  lemma AggregateIntensityNonNegative(rs: seq<HouseholdResult>, cutoff: real)
    requires forall n | 0 <= n < |rs| :: ClassifiedAgainst(rs[n], cutoff) && 0.0 <= rs[n].deprivationScore
    ensures 0.0 <= Aggregate(rs).intensity
  {
    PoorIntensityNonNegative(rs, cutoff);
    if CountPoor(rs) > 0 {
      MeanAtLeast(PoorIntensitySum(rs), CountPoor(rs) as real, 0.0);
    }
  }

  /** When every score is non-negative, so is the sum of the poor households' intensities. */
  lemma {:induction false} PoorIntensityNonNegative(rs: seq<HouseholdResult>, cutoff: real)
    requires forall n | 0 <= n < |rs| :: ClassifiedAgainst(rs[n], cutoff) && 0.0 <= rs[n].deprivationScore
    ensures 0.0 <= PoorIntensitySum(rs)
  {
    if rs != [] {
      PoorIntensityNonNegative(rs[..|rs| - 1], cutoff);
    }
  }

  /** A count no larger than a positive total gives a share in [0, 1]. */
  lemma AtMostOne(k: real, t: real)
    requires 0.0 <= k <= t && 0.0 < t
    ensures 0.0 <= k / t <= 1.0
  {
    var q := k / t;
    assert q * t == k;
  }

  /** With no poor result, the poor-intensity sum is 0. */
  lemma {:induction false} PoorIntensityOfNonPoor(rs: seq<HouseholdResult>)
    requires CountPoor(rs) == 0
    ensures PoorIntensitySum(rs) == 0.0
  {
    if rs != [] {
      PoorIntensityOfNonPoor(rs[..|rs| - 1]);
    }
  }

  /** A sum of at least k × c over k > 0 items has mean at least c. */
  lemma MeanAtLeast(s: real, k: real, c: real)
    requires 0.0 < k && s >= k * c
    ensures s / k >= c
  {
    var m := s / k;
    assert m * k == s;
  }

  /** A sum of at most k × c over k > 0 items has mean at most c. */
  lemma MeanAtMost(s: real, k: real, c: real)
    requires 0.0 < k && s <= k * c
    ensures s / k <= c
  {
    var m := s / k;
    assert m * k == s;
  }

  /** (k / t) × (s / k) = s / t: the headcount ratio times the intensity is the mean censored score. */
  lemma MeanTimesShare(s: real, k: real, t: real)
    requires 0.0 < k && 0.0 < t
    ensures (k / t) * (s / k) == s / t
  {
    var a, b := k / t, s / k;
    assert a * t == k && b * k == s;
    assert (a * b) * t == s;
  }

  /** Standard and adjusted results for one household, and how they differ. */
  datatype Comparison = Comparison(
    standard: HouseholdResult, adjusted: HouseholdResult,
    scoreDifference: real, classificationChanged: bool)

  /**
   * `compare_standard_vs_adjusted`: score the household under the standard table and
   * under `adjusted` (default cutoff for both); report adjusted − standard and whether
   * the classification differs.
   */
  function CompareStandardVsAdjusted(h: Household, adjusted: WeightTable): (r: Comparison)
    ensures r.standard == HouseholdMpi(h, None, None)
    ensures r.adjusted == HouseholdMpi(h, Some(adjusted), None)
    ensures r.adjusted.deprivationScore == r.standard.deprivationScore + r.scoreDifference
    ensures r.classificationChanged <==> r.standard.isPoor != r.adjusted.isPoor
  {
    var standard := HouseholdMpi(h, None, None);
    var adjusted := HouseholdMpi(h, Some(adjusted), None);
    Comparison(standard, adjusted,
               adjusted.deprivationScore - standard.deprivationScore,
               standard.isPoor != adjusted.isPoor)
  }

  /**
   * The classification changes exactly when the 0.33 cutoff separates the two
   * scores: one score below it and the other at or above it.
   */
  lemma ClassificationChangeCrossesCutoff(h: Household, adjusted: WeightTable)
    ensures var r := CompareStandardVsAdjusted(h, adjusted);
      var s, a := r.standard.deprivationScore, r.adjusted.deprivationScore;
      r.classificationChanged <==>
        (s < PovertyCutoff <= a) || (a < PovertyCutoff <= s)
  {
  }

  /** Comparing the standard table with itself reports no difference and no change. */
  lemma CompareWithStandardIsNeutral(h: Household)
    ensures CompareStandardVsAdjusted(h, StandardWeights()).scoreDifference == 0.0
    ensures !CompareStandardVsAdjusted(h, StandardWeights()).classificationChanged
  {
  }
}
