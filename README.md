# Campus carbon dashboard: data model

This project models the data layer of a campus carbon-emission dashboard
(`carbon-dashboard.tsx`, lines 5–122). The layer does five things:

- It synthesizes twelve months of consumption history: electricity in kWh, water in tonnes, natural gas in m³.
- It projects twelve further months from the last historical month.
- It derives each record's CO₂ in tonnes. The factors are 0.785 kg/kWh, 0.25 kg/t and 2.1 kg/m³.
- It folds a series into yearly totals, and into a split of carbon by source with percentages to one decimal.
- It generates ten campus buildings, each scaled by a keyword multiplier, and ranks them by total carbon, highest first.

Arithmetic is over exact rationals. `Math.round` is half-up rounding, `Floor(x + 1/2)`.

The modules:

- `Emissions` (`emissions.dfy`): rounding, the three conversion factors, and the carbon derivation. `Derive` is the derivation the three generators share, and `IsDerived` is the invariant every generated record satisfies.
- `Series` (`series.dfy`): the historical and the prediction generators. Each is an imperative method that pushes twelve records onto a local list, then assigns the carbon fields of each record in a second pass. Each method is proved equal to a specification function, `Historical` or `Predicted`, and the properties are lemmas about those functions.
- `Aggregates` (`aggregates.dfy`): the `reduce` folds. They are pure functions, with fold laws and percentage bounds.
- `Buildings` (`buildings.dfy`): first-match keyword classification by substring, the building records, and the ranking.
  - The ranking is a stable insertion sort run in place on an array.
  - It is proved equal to a functional stable insertion, `RankByCarbon`.
  - `RankByCarbon` is in turn proved sorted, a permutation, and stable: records with equal totals keep their list order.

Inputs the program takes from the environment are parameters:

- The `Math.random()` values are a sequence `draws` of reals in [0, 1), consumed in object-literal evaluation order. Record k draws electricity from `draws[3k]`, water from `draws[3k+1]` and gas from `draws[3k+2]`. That is 36 draws for the history and 30 for the buildings.
- `Math.sin(i/2)` and `Math.cos(i/3)` are twelve-entry tables, `sinHalf` and `cosThird`, indexed by month. The prediction indexes them by the wrapped month index, as the code does. Where a bound needs it (`HistoricalElectricitySeason`), the sine values are assumed to lie in [-1, 1].

With a zero carbon total, carbon-dashboard.tsx:88-90 divides by zero: 0 / 0
gives NaN and a non-zero value over 0 gives ±Infinity. `Percent` returns
`NaN` or `Infinite` accordingly and adds no guard.

## Model

| member | source | states |
|---|---|---|
| Emissions.Round | carbon-dashboard.tsx:25 | `Math.round`: the result is the unique integer r with r − ½ ≤ x < r + ½ |
| Emissions.RoundMonotone | carbon-dashboard.tsx:25-27 | rounding never reverses the order of two figures |
| Emissions.RoundBetween | carbon-dashboard.tsx:18 | a figure between two integers rounds to an integer between them |
| Emissions.Tonnes | carbon-dashboard.tsx:25-27 | whole tonnes of CO₂: within ½ of amount × factor / 1000 |
| Emissions.TonnesMonotone | carbon-dashboard.tsx:25-27 | more consumption at a non-negative factor never yields fewer tonnes |
| Emissions.Derive | carbon-dashboard.tsx:25-28 | the carbon fields satisfy the derivation invariant: each is the rounded tonnage of its source, and the total is their sum. They are the only fields that do |
| Emissions.DeriveNonNegative | carbon-dashboard.tsx:25-28 | non-negative consumption gives non-negative carbon in every field |
| Emissions.DeriveMonotone | carbon-dashboard.tsx:25-28 | more consumption of every kind never gives less total carbon |
| Series.WithCarbon | carbon-dashboard.tsx:23-29 | assigning the carbon fields establishes the derivation invariant and leaves month, flag and raw figures unchanged |
| Series.HistoricalUsage | carbon-dashboard.tsx:14-19 | the raw record of month i: label `months[i]`, electricity, water and gas from the seasonal formulas with draws 3i, 3i+1, 3i+2, carbon not yet assigned; its properties are in `HistoricalShape`, `HistoricalGasSeason`, `HistoricalElectricitySeason` and `JulyScenario` |
| Series.Historical | carbon-dashboard.tsx:5-32 | the series `generateHistoricalData` returns: the twelve raw months of `HistoricalUsage`, each with its carbon fields assigned; `GenerateHistoricalData` is proved equal to it, and its properties are in `HistoricalShape`, `HistoricalGasSeason`, `HistoricalElectricitySeason`, `JulyScenario` and `PredictionAfterFullYear` |
| Series.HistoricalShape | carbon-dashboard.tsx:6-20 | the history has twelve records labelled Jan..Dec in order, none a prediction, each derived |
| Series.HistoricalGasSeason | carbon-dashboard.tsx:11-18 | gas is round(90000 + 5000r) in winter (months 0, 1, 10, 11), and so in [90000, 95000]; otherwise round(50000 + 5000r), in [50000, 55000] |
| Series.HistoricalElectricitySeason | carbon-dashboard.tsx:11-16 | with sine values in [−1, 1], summer electricity (months 5..7) lies in [180000, 300000] and other months' in [100000, 220000] |
| Series.JulyScenario | carbon-dashboard.tsx:16-28 | with zero noise and sin(3) ≈ 0.14112, July's electricity is 237056 kWh and its carbon 186 t |
| Series.GenerateHistoricalData | carbon-dashboard.tsx:5-32 | the push loop and the carbon pass return exactly `Historical`: twelve months Jan..Dec, not predictions, derived, with the seasonal gas bounds |
| Series.TrendFactor | carbon-dashboard.tsx:46 | the trend is at least 1 and equals 1 + i/200 |
| Series.PredictedMonth | carbon-dashboard.tsx:41 | the wrapped month index is below 12 |
| Series.ProjectedAtLeast | carbon-dashboard.tsx:46-52 | the trend never lowers a non-negative figure |
| Series.Projected | carbon-dashboard.tsx:46-52 | `Math.round(x * trendFactor)` for offset i; its properties are in `ProjectedAtLeast`, `PredictedGas` and `PredictedGasGrowth` |
| Series.PredictedUsage | carbon-dashboard.tsx:41-54 | the raw prediction for offset i and month index m: label `months[m]`, the last record's figures plus the seasonal terms of m grown by the trend, flagged as a prediction; its properties are in `PredictedShape`, `PredictedGas`, `PredictedGasGrowth` and `PredictionGas` |
| Series.Predicted | carbon-dashboard.tsx:35-66 | the result of `generatePredictionData`: a failure on an empty history; otherwise the twelve records of `PredictedUsage` from the last record at the wrapped month indices, each with its carbon fields assigned. `GeneratePredictionData` is proved equal to it, and its properties are in `PredictedShape`, `PredictionDependsOnlyOnLast`, `PredictionAfterFullYear` and `PredictionGas` |
| Series.GeneratePredictionData | carbon-dashboard.tsx:35-66 | the method returns exactly `Predicted`. An empty history fails, because its last record does not exist. Otherwise there are twelve records, flagged as predictions, labelled `months[(len + i) % 12]`, each derived |
| Series.PredictedShape | carbon-dashboard.tsx:36-55 | failure exactly on an empty history; otherwise twelve prediction records with the wrapped labels, each derived |
| Series.PredictionDependsOnlyOnLast | carbon-dashboard.tsx:36-52 | no randomness enters the projection: two histories with the same last record and the same length modulo 12 give the same prediction |
| Series.ModAddCongruent | carbon-dashboard.tsx:41 | lengths congruent modulo 12 give the same wrapped month index at every offset |
| Series.PredictionAfterFullYear | carbon-dashboard.tsx:36-53 | after a full year of history the prediction is labelled Jan..Dec, matching the history's labels month for month |
| Series.PredictedGas | carbon-dashboard.tsx:43-52 | predicted gas is round((last gas + 60000 in winter, else 20000) × (1 + i/200)) |
| Series.PredictedGasGrowth | carbon-dashboard.tsx:46-52 | for non-negative last gas, predicted gas is at least last gas + 20000 |
| Series.PredictionGas | carbon-dashboard.tsx:36-52 | the gas of the i-th returned prediction is round((last gas + 60000 in a winter month, else 20000) × (1 + i/200)) for the wrapped month, and at least last gas + 20000 when last gas is non-negative |
| Aggregates.Sum | carbon-dashboard.tsx:71-74 | `reduce((sum, item) => sum + item.f, 0)` as a left fold over one field; its laws are `SumAppend`, `SumConcat`, `SumSingleton`, `SumNonNegative` and `SumOfSources` |
| Aggregates.SumAppend | carbon-dashboard.tsx:71-74 | appending a record adds exactly its field to the fold |
| Aggregates.SumConcat | carbon-dashboard.tsx:71-74 | the fold distributes over concatenation |
| Aggregates.SumSingleton | carbon-dashboard.tsx:71-74 | the fold of one record is its field |
| Aggregates.SumNonNegative | carbon-dashboard.tsx:82-84 | folding non-negative fields gives a non-negative sum |
| Aggregates.SumOfSources | carbon-dashboard.tsx:74-85 | on derived records, the fold of total carbon equals the sum of the three per-source folds |
| Aggregates.CalculateYearlyData | carbon-dashboard.tsx:69-78 | the four folds of electricity, water, gas and total carbon; its laws are `YearlyOfEmpty`, `YearlyAppend` and `YearlyConcat` |
| Aggregates.YearlyOfEmpty | carbon-dashboard.tsx:69-78 | the yearly totals of an empty series are all zero |
| Aggregates.YearlyAppend | carbon-dashboard.tsx:69-78 | appending a record adds exactly its electricity, water, gas and total carbon to the yearly totals |
| Aggregates.YearlyConcat | carbon-dashboard.tsx:69-78 | the yearly totals of two stretches add up to the totals of both |
| Aggregates.Percent | carbon-dashboard.tsx:88-90 | finite exactly when the total is non-zero. Then it has one decimal and lies in (exact − 0.05, exact + 0.05], with exact = 100 × value / total. Over a zero total it is NaN exactly for value 0, otherwise an infinity of the value's sign |
| Aggregates.PercentBounds | carbon-dashboard.tsx:88-90 | a non-negative part of a positive total has a percentage in [0, 100] |
| Aggregates.SourceTotal | carbon-dashboard.tsx:82-85 | `total`: the sum of the three per-source carbon folds; `CalculateCarbonSources` states that its three values add up to it, and `SourcesMatchYearly` that on derived records it is the yearly total carbon |
| Aggregates.CalculateCarbonSources | carbon-dashboard.tsx:81-91 | three shares, Electricity, Water and Natural Gas in that order; each value is the fold of that source's carbon, the values sum to the grand total, and each share carries its `Percent` of that total |
| Aggregates.SharesSumNearHundred | carbon-dashboard.tsx:85-90 | with a non-zero total the three percentages are finite and sum to within (99.85, 100.15] |
| Aggregates.SharesWithinBounds | carbon-dashboard.tsx:82-90 | with non-negative carbon figures and a positive total every percentage lies in [0, 100] |
| Aggregates.SourcesMatchYearly | carbon-dashboard.tsx:74-85 | on derived records the three source values add up to the yearly total carbon |
| Buildings.BuildingNamesDistinct | carbon-dashboard.tsx:96-99 | the fixed list has ten names, pairwise distinct |
| Buildings.Includes | carbon-dashboard.tsx:103-106 | `String.prototype.includes`: the pattern occurs at some index of the string; its properties are in `IncludesHasChar` and `Lacks` |
| Buildings.IncludesHasChar | carbon-dashboard.tsx:103-106 | every character of an included pattern occurs in the string |
| Buildings.Lacks | carbon-dashboard.tsx:103-106 | a pattern with a character the string lacks is not included |
| Buildings.Multiplier | carbon-dashboard.tsx:103-106 | 1.8 exactly when the name contains Laboratory; 1.5 exactly when it contains Cafeteria but not Laboratory; then 1.3 for Teaching, 1.2 for Dormitory; 1 when the name contains none of them |
| Buildings.LaboratoryWinsOverCafeteria | carbon-dashboard.tsx:103-112 | every name containing both Laboratory and Cafeteria takes the earlier-checked multiplier 1.8, and still draws cafeteria gas |
| Buildings.NoKeyword | carbon-dashboard.tsx:103-106 | a name lacking a character of every keyword takes multiplier 1 and is not the cafeteria |
| Buildings.TeachingKeyword | carbon-dashboard.tsx:103-105 | every name that contains Teaching and neither Laboratory nor Cafeteria takes 1.3 and draws no cafeteria gas |
| Buildings.DormitoryKeyword | carbon-dashboard.tsx:103-106 | every name that contains Dormitory and none of Laboratory, Cafeteria and Teaching takes 1.2 and draws no cafeteria gas |
| Buildings.LibraryAndGymnasiumMultipliers | carbon-dashboard.tsx:96-106 | Library and Gymnasium take 1 |
| Buildings.AdministrationMultiplier | carbon-dashboard.tsx:96-106 | Administration Building takes 1 |
| Buildings.TeachingMultipliers | carbon-dashboard.tsx:96-106 | both teaching buildings take 1.3 |
| Buildings.FirstDormitoryMultiplier | carbon-dashboard.tsx:96-106 | Student Dormitory Area 1 takes 1.2 |
| Buildings.SecondDormitoryMultiplier | carbon-dashboard.tsx:96-106 | Student Dormitory Area 2 takes 1.2 |
| Buildings.CafeteriaAndLaboratoryMultipliers | carbon-dashboard.tsx:96-106 | the cafeteria takes 1.5 and both laboratories 1.8 |
| Buildings.FixedMultipliers | carbon-dashboard.tsx:96-112 | the multipliers of the ten buildings are 1, 1, 1.3, 1.3, 1.2, 1.2, 1.5, 1.8, 1.8, 1, and only building 6 gets cafeteria gas |
| Buildings.WithCarbon | carbon-dashboard.tsx:114-120 | the carbon map establishes the derivation invariant and keeps name and raw figures |
| Buildings.BuildingUsage | carbon-dashboard.tsx:101-113 | the raw record of one building from three draws: figures scaled by the name's `Multiplier`, cafeteria gas for a Cafeteria name, carbon not yet assigned; its ranges are in `BuildingUsageBounds` and `UnrankedBounds` |
| Buildings.BuildingUsageBounds | carbon-dashboard.tsx:108-113 | electricity lies in [round(70000 m), round(120000 m)] and water in [round(40000 m), round(60000 m)]. Gas lies in [20000, 30000] for a Cafeteria name and in [5000, 10000] otherwise |
| Buildings.Unranked | carbon-dashboard.tsx:96-120 | the two `map` calls: building k of the list, built by `BuildingUsage` from draws 3k, 3k+1, 3k+2, with its carbon fields assigned; its properties are in `UnrankedShape` and `UnrankedBounds` |
| Buildings.UnrankedBounds | carbon-dashboard.tsx:101-113 | the k-th generated record carries the k-th name, electricity and water within the ranges of its fixed multiplier, and cafeteria gas exactly for k = 6 |
| Buildings.WithTotalAppend | carbon-dashboard.tsx:121 | filtering by a total distributes over appending one record |
| Buildings.Insert | carbon-dashboard.tsx:121 | one step of a stable insertion sort under the comparator `b.totalCarbon - a.totalCarbon`: the record goes after every record with at least its total; its properties are in `InsertPermutes`, `InsertSorted`, `InsertStable` and `InsertSplit` |
| Buildings.RankByCarbon | carbon-dashboard.tsx:121 | the stable descending sort, as successive `Insert`s; `SortByCarbon` is proved equal to it, and `RankSorted`, `RankPermutes`, `RankStable` and `RankedFacts` prove it sorted, a permutation and stable |
| Buildings.InsertPermutes | carbon-dashboard.tsx:121 | one insertion step adds exactly the inserted record, and its name |
| Buildings.InsertSorted | carbon-dashboard.tsx:121 | inserting into a ranked sequence keeps it ranked |
| Buildings.InsertStable | carbon-dashboard.tsx:121 | the inserted record comes after every earlier record with its total |
| Buildings.RankSorted | carbon-dashboard.tsx:121 | the ranking is non-increasing in total carbon |
| Buildings.RankPermutes | carbon-dashboard.tsx:121 | the ranking is a permutation of its input, and so of its names |
| Buildings.RankStable | carbon-dashboard.tsx:121 | records with equal total carbon keep their input order |
| Buildings.SortByCarbon | carbon-dashboard.tsx:121 | sorting the array in place leaves exactly `RankByCarbon` of its old contents |
| Buildings.InsertStep | carbon-dashboard.tsx:121 | shifting the smaller-total records right and placing the next record performs one `Insert`, and leaves the unsorted tail alone |
| Buildings.InsertedAt | carbon-dashboard.tsx:121 | a record placed after the records with at least its total is `Insert` of it |
| Buildings.InsertSplit | carbon-dashboard.tsx:121 | `Insert` places the record at the first position after the prefix of records with at least its total |
| Buildings.RankedFacts | carbon-dashboard.tsx:114-121 | ranking derived records gives as many records, sorted, with the same names and ties in input order, all still derived |
| Buildings.UnrankedShape | carbon-dashboard.tsx:96-120 | before ranking, the records carry the ten names in list order, each derived |
| Buildings.GenerateBuildingData | carbon-dashboard.tsx:95-122 | the result is the stable ranking of the ten generated records: ten records, non-increasing in total carbon. Every name of the list occurs exactly once, ties keep list order, and every record is derived |

## Left out

- The React component, from line 124 on, is not part of this model. That covers its state, the loading delay, tabs and chart rendering.
- The slicing of the prediction into a shorter combined series is presentation only and is not modelled. So is the display arithmetic in the view: unit scaling, the per-day and per-capita figures, category averages and reduction estimates.
- `Math.random` is not modelled as a generator. Its values are the `draws` parameter.
- `Math.sin` and `Math.cos` are not computed. Their values are the `sinHalf` and `cosThird` tables.
- IEEE-754 doubles are not modelled: arithmetic is exact. A product the code computes as a double just below or above a .5 tie may round differently from the exact value the model rounds.
- Series.GenerateHistoricalData, Series.GeneratePredictionData: while the carbon pass is running, the JavaScript records that are not yet updated have no carbon keys at all. The model gives them a placeholder, `Unset`, and it never appears in a returned value.
- Series.GenerateHistoricalData: historical records have no `isPrediction` key; it reads as undefined, which is falsy. The model stores `false`.
- Series.GeneratePredictionData: on an empty history, JavaScript reads `undefined` at line 36 and throws a TypeError at line 50. The model returns `Failure(EmptyHistory)` instead of modelling the exception.
- Series.HistoricalElectricitySeason: the bounds assume the sine table holds values in [−1, 1]. The table is a parameter, so this is stated as a requirement and not derived.
- Buildings.SortByCarbon: `Array.prototype.sort` is a stable sort. All stable sorts under the same comparator produce the same unique result, `RankByCarbon`, so the model uses insertion sort. The engine's own steps and its comparison count are not modelled.
- Buildings.GenerateBuildingData: the two `map` calls build new arrays, and the second mutates the objects produced by the first. The model writes the derived records back into one array before sorting it. No other code can observe either array, so no aliasing is lost.
