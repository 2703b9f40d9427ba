# Climate-adjusted multidimensional poverty index — a Dafny model

This project models the weighting and scoring engine of a climate-adjusted
Multidimensional Poverty Index (MPI) that follows the Alkire–Foster method.
Each household has deprivation values in [0, 1], one per indicator. A weight
table turns them into one weighted deprivation score. A household is poor when
its score reaches the cutoff 0.33, and its intensity is its score if it is poor
and 0 otherwise. For a population:

- H (the headcount ratio) is the share of poor households;
- A (the intensity) is the mean intensity of the poor households;
- MPI = H × A.

The model has four modules:

- `Tables` (`tables.dfy`): weight tables as maps from an enumeration to reals.
  It defines a table's total, the weighted sum in key order, and the
  normalising step `{k: v / total}`. It also holds the generic lemmas:
  - normalising by the total gives a table that sums to exactly 1;
  - bounds and monotonicity of weighted sums;
  - the sums over ten and fourteen keys written out term by term.
- `Mpi` (`mpi.dfy`): the standard index over ten indicators. It covers:
  - the fixed weights, 1/6 for each health and education indicator and 1/18
    for each living-standards indicator;
  - range validation of a household's record;
  - the score, as a loop;
  - classification and intensity;
  - the population aggregates, as a tallying loop against a recursive
    specification;
  - the comparison of the standard weights with an adjusted table.
- `EnhancedMpi` (`enhanced_mpi.dfy`): the enhanced index over fourteen
  dimensions. Nine are the standard indicators except flooring. The others are
  an enhanced housing dimension (structure, tenure and cost) and four new
  composites (digital, transport, economic security, environment). It covers:
  - the fourteen-entry weight table;
  - its context-adjusted variant, built as a chain of in-place additions
    followed by renormalisation;
  - the housing sub-component weights;
  - the score, with Python's `KeyError` on a missing weight modelled as an
    error result;
  - the household classification.
- `Cells` (`cells.dfy`): geographic cells. It covers:
  - the climate-harshness index;
  - the urbanisation level;
  - coordinate validation;
  - the climate-adjusted version of the ten standard weights.

Reals are exact in the model, so "sums to 1" is proved exactly. Python floats
only approximate it.

## Model

| member | source | states |
|---|---|---|
| Tables.Normalized | models/enhanced_mpi.py:252-254 | Normalising keeps exactly the table's keys. Each new entry times the total is the old entry. With a positive total, positive entries stay positive. |
| Tables.NormalizedSumsToOne | models/enhanced_mpi.py:252-254 | Dividing every entry by the table's own non-zero total gives a table whose entries sum to exactly 1. |
| Tables.TotalNormalized | models/cells.py:113-115 | Dividing every weight by t divides the total by t. |
| Tables.DotBounds | models/mpi.py:90-95 | With non-negative weights and values in [0, 1], the weighted sum lies between 0 and the total weight. |
| Tables.DotMonotone | models/enhanced_mpi.py:308-330 | With non-negative weights, raising the values never lowers the weighted sum. |
| Tables.DotOfZeros | models/mpi.py:90-95 | With all values 0, the weighted sum is 0 under any weights. |
| Tables.DotOfOnes | models/mpi.py:90-95 | With all values 1, the weighted sum is the table's total. |
| Mpi.NewDeprivationScore | models/mpi.py:27-31 | A record is accepted, unchanged, exactly when all ten fields lie in [0, 1]. Otherwise the error names the first field, in declaration order, that lies outside [0, 1], together with its value. |
| Mpi.IndicatorsEnumerate | models/mpi.py:9-25 | The ten indicators are listed once each, in declaration order. |
| Mpi.StandardWeights | models/mpi.py:51-67 | The standard table has a weight for every indicator. Its weights are non-negative and sum to exactly 1. |
| Mpi.StandardWeightsTotal | models/mpi.py:51-67 | Four weights of 1/6 and six weights of 1/18 sum to 1. |
| Mpi.EffectiveCutoff | models/mpi.py:69 | The cutoff in force is the one given, or 0.33 when none is given. |
| Mpi.CalculateDeprivationScore | models/mpi.py:87-95 | The loop computes the weighted sum of the table given, or of the standard table when none is given. A valid record under a proper weighting scores in [0, 1]. |
| Mpi.ScoreInUnit | models/mpi.py:77-86 | A valid record scored under non-negative weights that sum to 1 scores in [0, 1]. |
| Mpi.ScoreOfNoDeprivation | models/mpi.py:87-95 | A record deprived in nothing scores 0 under every table. |
| Mpi.ScoreOfFullDeprivation | models/mpi.py:87-95 | A record deprived in everything scores the table's total, which is 1 for a proper weighting. |
| Mpi.WeightedScoreOfIndicators | models/mpi.py:90-95 | The score is the sum, over the ten indicators, of weight × value. A missing weight counts as 0. |
| Mpi.IsPoor | models/mpi.py:98-102 | A household is poor exactly when its score is at least the cutoff in force. |
| Mpi.Intensity | models/mpi.py:105-119 | The intensity is the score when the household is poor, and 0 otherwise. |
| Mpi.IsPoorMonotone | models/mpi.py:98-102 | A higher score never makes a poor household non-poor. A lower cutoff never makes a poor household non-poor. |
| Mpi.HouseholdMpi | models/mpi.py:122-142 | The household's score is its weighted score. Its classification and its intensity are computed against one and the same cutoff. |
| Mpi.Results | models/mpi.py:166-169 | There is one result per household, in order, each that household's own result. |
| Mpi.CountPoor | models/mpi.py:171 | The number of poor households is at most the number of households. |
| Mpi.Aggregate | models/mpi.py:157-195 | An empty population gives all zeros and no mean score. Otherwise: H is the number of poor households over the total, and lies in [0, 1]; A is the mean intensity of the poor households, or 0 when there are none; MPI = H × A, which equals the sum of the intensities over the population size; the mean score is given. |
| Mpi.CalculatePopulationMpi | models/mpi.py:144-195 | The method returns the aggregates of the households' individual results. |
| Mpi.TallyResults | models/mpi.py:166-194 | One pass over the households gives the number of poor households, the sum of their intensities and the sum of all scores. |
| Mpi.Summarise | models/mpi.py:171-195 | From the tallies it forms H = numPoor / total, A = intensity sum / numPoor (0 with no poor households), MPI = H × A = intensity sum / total, and the mean score. |
| Mpi.PoorIntensityAtLeastCutoff | models/mpi.py:178-181 | Each poor household contributes at least the cutoff to the sum of intensities. |
| Mpi.PoorIntensityAtMostCount | models/mpi.py:178-181 | When no score exceeds 1, each poor household contributes at most 1 to the sum of intensities. |
| Mpi.PoorIntensityOfNonPoor | models/mpi.py:182-183 | With no poor households, the sum of intensities is 0, so A = 0. |
| Mpi.IntensityAtLeastCutoff | models/mpi.py:177-183 | When some household is poor, the population intensity A is at least the cutoff. |
| Mpi.IntensityAtMostOne | models/mpi.py:177-183 | When no score exceeds 1, the population intensity A is at most 1. |
| Mpi.ResultsIntensityAtLeastCutoff | models/mpi.py:166-181 | Over a population's results, the intensities of the poor sum to at least the number of poor households times the cutoff. |
| Mpi.ResultsIntensityAtMostCount | models/mpi.py:166-181 | Over results whose scores are at most 1, the intensities of the poor sum to at most the number of poor households. |
| Mpi.AggregateIntensityAtLeast | models/mpi.py:178-181 | If the intensities of the poor sum to at least c per poor household, then A ≥ c. |
| Mpi.AggregateIntensityAtMostOne | models/mpi.py:178-183 | If the intensities of the poor sum to at most 1 per poor household, then A ≤ 1. |
| Mpi.MeanOfPoorAtLeast | models/mpi.py:179-181 | The mean intensity of the poor is at least c when their intensities sum to at least c per poor household. |
| Mpi.ValidScoresAtMostOne | models/mpi.py:166-169 | Valid records scored under a proper weighting never score above 1. |
| Mpi.ValidScoresNonNegative | models/mpi.py:166-169 | Valid records scored under a proper weighting never score below 0. |
| Mpi.PoorIntensityNonNegative | models/mpi.py:178-181 | When no classified result scores below 0, the intensities of the poor sum to at least 0. |
| Mpi.AggregateIntensityNonNegative | models/mpi.py:177-183 | Classified results with no negative score give a population intensity A ≥ 0. |
| Mpi.AggregateInUnit | models/mpi.py:157-195 | For valid records under a proper weighting, A and MPI = H × A both lie in [0, 1], whatever the cutoff. |
| Mpi.MeanTimesShare | models/mpi.py:175-186 | (k/t) × (s/k) = s/t: H × A is the intensity sum over the population size. |
| Mpi.CompareStandardVsAdjusted | models/mpi.py:197-218 | Both results use the default cutoff: the standard one uses the standard table and the adjusted one uses the given table. The difference is adjusted minus standard. The classification changed exactly when the two poverty flags differ. |
| Mpi.ClassificationChangeCrossesCutoff | models/mpi.py:209-217 | The classification changes exactly when 0.33 separates the two scores. |
| Mpi.CompareWithStandardIsNeutral | models/mpi.py:209-217 | Comparing the standard table with itself reports a zero difference and no change. |
| EnhancedMpi.HousingDeprivation.CompositeScore | models/enhanced_mpi.py:18-24 | Structure 40%, tenure 30%, cost 30%. The score lies in [0, 1] for valid parts, and three equal parts give that common value. |
| EnhancedMpi.DigitalDeprivation.CompositeScore | models/enhanced_mpi.py:34-37 | The mean of three indicators. It lies in [0, 1] for valid parts, and equal parts give that common value. |
| EnhancedMpi.TransportDeprivation.CompositeScore | models/enhanced_mpi.py:47-52 | Access 40%, time 30%, cost 30%. It lies in [0, 1] for valid parts, and equal parts give that common value. |
| EnhancedMpi.EconomicVulnerability.CompositeScore | models/enhanced_mpi.py:63-67 | The mean of four indicators. It lies in [0, 1] for valid parts, and equal parts give that common value. |
| EnhancedMpi.EnvironmentalDeprivation.CompositeScore | models/enhanced_mpi.py:78-84 | Air quality 30%, heat 30%, flood 25%, toxic sites 15%. It lies in [0, 1] for valid parts, and equal parts give that common value. |
| EnhancedMpi.DimensionsEnumerate | models/enhanced_mpi.py:187-209 | All fourteen dimensions occur in the table's key order, each exactly once. |
| EnhancedMpi.HousingWeights.Apply | models/enhanced_mpi.py:316-321 | Under convex sub-weights, a valid housing record gives a housing deprivation in [0, 1]. |
| EnhancedMpi.WeightedSumBounds | models/enhanced_mpi.py:316-321 | Three non-negative weights of values in [0, 1] give a weighted sum between 0 and the sum of the weights. |
| EnhancedMpi.DefaultHousingWeights | models/enhanced_mpi.py:305-306 | The default sub-weights 0.4/0.3/0.3 are convex and reproduce the housing composite score. |
| EnhancedMpi.EnhancedDeprivationScore.ToStandardMpiCompatible | models/enhanced_mpi.py:124-140 | The nine shared indicators are copied unchanged, and flooring is the housing structure quality. |
| EnhancedMpi.StandardCompatibleIsValid | models/enhanced_mpi.py:118-140 | A record that passed construction, with a structure quality in [0, 1], converts to a valid standard record. |
| EnhancedMpi.NewEnhancedDeprivationScore | models/enhanced_mpi.py:118-122 | A record is accepted, unchanged, exactly when its nine plain indicator fields lie in [0, 1]. Otherwise the error names the first of those fields to fail, with its value. The nested composites are not checked. |
| EnhancedMpi.EnhancedHousehold.HousingCostBurden | models/enhanced_mpi.py:167-172 | There is a housing-cost share exactly when the income is truthy and positive and the housing cost is truthy. The share times the income is the housing cost. |
| EnhancedMpi.EnhancedHousehold.TransportCostBurden | models/enhanced_mpi.py:174-179 | The same, for the transport cost. |
| EnhancedMpi.EnhancedWeights | models/enhanced_mpi.py:187-209 | The enhanced table has a weight for every dimension. Its weights are all positive and sum to exactly 1. |
| EnhancedMpi.EnhancedWeightsEntries | models/enhanced_mpi.py:187-209 | Each entry is the listed constant for its dimension. |
| EnhancedMpi.BaseWeightsTotal | models/enhanced_mpi.py:187-209 | The fourteen listed constants sum to 1. |
| EnhancedMpi.AdjustedRawEntries | models/enhanced_mpi.py:232-247 | After the in-place additions, every dimension has its base weight plus its own adjustment. |
| EnhancedMpi.AdjustedEntry | models/enhanced_mpi.py:234-247 | The seven additions change each entry by exactly that dimension's adjustment, whatever the starting table. |
| EnhancedMpi.AdjustedRawTotal | models/enhanced_mpi.py:253 | Before renormalisation the adjusted table totals 1 + 0.09h + 0.08u + 0.06s + 0.05d. |
| EnhancedMpi.AddContextAdjustments | models/enhanced_mpi.py:232-247 | The seven in-place additions produce the adjusted table. |
| EnhancedMpi.ContextAdjustedWeights | models/enhanced_mpi.py:213-254 | The adjusted weights cover every dimension and sum to exactly 1. Each entry is (base + adjustment) / total. With non-negative inputs every weight is positive. |
| EnhancedMpi.NormalizedAdjusted | models/enhanced_mpi.py:252-254 | Dividing the adjusted entries by their total gives a covering table that sums to 1, entry by entry (base + adjustment) / total. |
| EnhancedMpi.AdjustedRawPositive | models/enhanced_mpi.py:234-247 | With non-negative context inputs, every adjusted entry is positive. |
| EnhancedMpi.GetContextAdjustedWeights | models/enhanced_mpi.py:213-254 | The copy, the in-place additions and the division by the total produce exactly the context-adjusted weights. The rental-market input has no effect. |
| EnhancedMpi.AdjustedRawOnlySeven | models/enhanced_mpi.py:234-250 | Before renormalisation, only the seven adjusted dimensions differ from the enhanced table. |
| EnhancedMpi.ContextAdjustedNeutral | models/enhanced_mpi.py:213-254 | With every context input at 0, the adjusted table equals the enhanced table entry by entry. |
| EnhancedMpi.ContextAdjustmentDilutes | models/enhanced_mpi.py:252-254 | With non-negative inputs, a dimension without an adjustment never gains weight. |
| EnhancedMpi.HousingSubcomponentWeights | models/enhanced_mpi.py:256-285 | The shares sum to 1. Each share times the total is its raw weight: 0.4 + 0.1h, 0.3 and 0.3 + 0.15r. With non-negative inputs they are positive and convex. With both inputs 0 they are the default 0.4/0.3/0.3. |
| EnhancedMpi.SharesSumToOne | models/enhanced_mpi.py:279-285 | Three parts divided by their non-zero sum add up to 1. |
| EnhancedMpi.StructureShareRises | models/enhanced_mpi.py:273-285 | In a strictly harsher climate, the structure share is strictly larger. |
| EnhancedMpi.CostShareRises | models/enhanced_mpi.py:276-285 | In a strictly tighter rental market, the cost share is strictly larger. |
| EnhancedMpi.CalculateEnhancedScore | models/enhanced_mpi.py:287-330 | The tables in force are the given ones or the defaults. Scoring succeeds exactly when the weight table has every dimension, and the score is then the weighted sum over the fourteen dimensions, with housing under its sub-weights. Otherwise the error is the first missing dimension in scoring order. |
| EnhancedMpi.ScoreWith | models/enhanced_mpi.py:308-330 | With the tables fixed: success exactly when every dimension has a weight, with the value equal to the enhanced score. Otherwise the first missing dimension is reported. |
| EnhancedMpi.AccumulateSimple | models/enhanced_mpi.py:310-314 | The loop over the nine plain dimensions succeeds exactly when all nine have weights, and returns their weighted sum. Otherwise the first missing one is reported. |
| EnhancedMpi.ScoreOfParts | models/enhanced_mpi.py:310-328 | The enhanced score is the nine-dimension sum plus housing under its sub-weights plus the four weighted composites. |
| EnhancedMpi.FirstMissing | models/enhanced_mpi.py:311-314 | A lookup that fails after all earlier lookups succeeded reports the first missing dimension. |
| EnhancedMpi.CoveredByPrefix | models/enhanced_mpi.py:308-330 | Once every listed dimension has been looked up, the table covers all dimensions. |
| EnhancedMpi.CalculateEnhancedHouseholdMpi | models/enhanced_mpi.py:332-357 | It succeeds exactly when the weights cover every dimension. Then the score is the enhanced score, and the household is classified, with its intensity, against the given cutoff or 0.33. Otherwise the first missing dimension is reported. |
| EnhancedMpi.ComponentInUnit | models/enhanced_mpi.py:310-328 | For a fully valid record under convex sub-weights, every dimension value lies in [0, 1]. |
| EnhancedMpi.EnhancedScoreInUnit | models/enhanced_mpi.py:287-330 | A fully valid record under a proper weighting and convex sub-weights scores in [0, 1]. |
| EnhancedMpi.EnhancedScoreMonotone | models/enhanced_mpi.py:287-330 | Under non-negative weights, a record at least as deprived in every dimension scores at least as high. |
| EnhancedMpi.EnhancedScoreOfNoDeprivation | models/enhanced_mpi.py:287-330 | A record deprived in nothing scores 0. |
| EnhancedMpi.EnhancedScoreOfFullDeprivation | models/enhanced_mpi.py:287-330 | A record deprived in everything scores the table's total. |
| EnhancedMpi.DefaultHousingContribution | models/enhanced_mpi.py:305-322 | Without explicit sub-weights, housing contributes its weight times the housing composite score. |
| Cells.Clip | models/cells.py:35 | The result lies in [lo, hi]. It is x when x is in range, lo below the range and hi above it. |
| Cells.NonNegativePart | models/cells.py:27-28 | max(0, x) is non-negative, at least x, and 0 exactly when x ≤ 0. |
| Cells.ClimateProfile.ComfortDeviation | models/cells.py:26-29 | The deviation is non-negative. It is 0 exactly when the annual range stays within 18–24 °C. |
| Cells.ClimateProfile.ClimateHarshness | models/cells.py:19-36 | Harshness lies in [0, 1]. It equals the unclipped combination when that is in [0, 1], and is 0 below the interval and 1 above it. |
| Cells.HarshnessMonotone | models/cells.py:31-35 | With the same extremes, more degree days never make a climate less harsh. |
| Cells.ContextFactors.UrbanizationLevel | models/cells.py:48-55 | Half the clipped density factor plus half the urban–rural index. It lies in [0, 1] when the index does. |
| Cells.GeographicCell.HasCompleteData | models/cells.py:76-79 | A cell is complete exactly when both climate and context data are present. |
| Cells.NewGeographicCell | models/cells.py:69-74 | A cell is accepted, unchanged, exactly when its coordinates are in range. An invalid latitude is reported before an invalid longitude. |
| Cells.ClimateRawEntries | models/cells.py:93-111 | Every indicator has its climate entry before renormalisation. |
| Cells.ClimateRawTotal | models/cells.py:113-114 | The climate entries total 0.90 + 0.24h + 0.14u. |
| Cells.ClimateWeights | models/cells.py:89-115 | The climate weights cover all ten indicators and sum to exactly 1. Each is its entry divided by the total. With non-negative inputs all are positive. |
| Cells.NormalizedClimate | models/cells.py:113-115 | Dividing the climate entries by their total gives a covering table that sums to 1, entry over total. |
| Cells.ClimateRawPositive | models/cells.py:93-111 | With non-negative harshness and urbanisation, every climate entry is positive. |
| Cells.CellUrbanization | models/cells.py:90 | The urbanisation is the context's urbanisation level when there is a context, and 0.5 otherwise. It lies in [0, 1] when the urban–rural index does. |
| Cells.GetClimateWeights | models/cells.py:81-115 | It fails, with the missing-climate error, exactly when the cell has no climate data. Otherwise it gives the climate weights for the cell's harshness and urbanisation, covering every indicator and summing to 1. |
| Cells.CompleteCellHasWeights | models/cells.py:76-115 | A cell with complete data and an urban–rural index in [0, 1] always gets positive weights that sum to 1. |
| Cells.ClimateEntryMonotone | models/cells.py:93-111 | Before renormalisation: electricity, cooking fuel and flooring grow with harshness; sanitation and water grow with urbanisation; the other five entries are constants. |
| Cells.ElectricityShareRises | models/cells.py:95-115 | After renormalisation, the electricity share strictly grows with harshness. |
| Cells.SanitationShareRises | models/cells.py:99-115 | After renormalisation, the sanitation share strictly grows with urbanisation. |
| Cells.NutritionShareFalls | models/cells.py:106-115 | After renormalisation, the constant nutrition share strictly shrinks as harshness grows. |
| Cells.ScoreOfFourLivingStandards | models/mpi.py:87-95 | A household deprived only in electricity, sanitation, flooring and cooking fuel scores the sum of those four weights. |
| Cells.StandardScoreOfFour | models/mpi.py:51-67 | Under the standard weights such a household scores 4/18, below the cutoff. |
| Cells.ClimateScoreOfFour | models/cells.py:93-115 | Under the climate weights with harshness 1 and urbanisation 0 it scores 0.53/1.14, above the cutoff. |
| Cells.ClimateWeightsChangeClassification | models/mpi.py:197-218 | That household is not poor under the standard weights but poor under the climate weights, so the comparison reports a changed classification. |

## Left out

- The web application, the data loaders and the test suite are outside the core.
- The base-10 logarithm of the population density is not modelled. `Cells.ContextFactors.UrbanizationLevel` takes `log10(max(1, density))` as a parameter.
- `to_dict` on a cell, and any serialisation, are not modelled.
- Floating-point rounding is not modelled. All arithmetic is on exact reals, so "sums to 1" holds exactly in the model and only approximately in Python.
- Weight tables are maps keyed by the indicator or dimension enumeration. A key naming no field, which makes the `getattr` lookup raise `AttributeError`, cannot be written. The order of a dictionary's keys does not change the exact sum.
- Mpi.CalculateDeprivationScore: iterates over the indicators in declaration order, and an indicator the table lacks contributes 0. The source iterates over the table's keys. The sums are equal over exact reals.
- EnhancedMpi.NewEnhancedDeprivationScore: checks the nine plain indicator fields. The source checks only fields whose runtime type is `float`, so an `int` such as 2 passes unchecked there. The nested composite records are not checked in either.
- EnhancedMpi.WeightError: the `KeyError` of a missing weight carries the dimension. Its Python key is `EnhancedMpi.Name(dimension)`.
- A missing housing sub-weight key is ruled out by the `HousingWeights` record, which always has all three parts.
- EnhancedMpi.GetContextAdjustedWeights: requires the adjusted total to be non-zero. The source raises `ZeroDivisionError` there, and the total is at least 1 for non-negative inputs.
- EnhancedMpi.ContextAdjustedWeights: requires the same non-zero total.
- EnhancedMpi.HousingSubcomponentWeights: requires the non-zero sum of the raw sub-weights, for the same reason.
- Cells.ClimateWeights: requires the non-zero total of the climate entries, for the same reason.
- Cells.GetClimateWeights: requires the non-zero total of the climate entries, for the same reason. The total is at least 0.90 when the urbanisation is non-negative.
- The Python comment on the climate table says its base entries sum to 1.0. They sum to 0.90 before the harshness and urbanisation terms. The renormalisation makes the final weights sum to 1 either way (`Cells.ClimateRawTotal`).
- Household identifiers, sizes, numbers of children and elderly, tenure type and the sprawl and rental indices are carried as data. None of them enters a score.
