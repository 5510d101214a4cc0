# Web carbon calculator: a Dafny model of the estimate

This project models the estimation logic of the Sustainable Web Design
Calculator (`calculator.js`). From a page size in KB, a monthly visitor count,
a number of pages per visit, a hosting class and a server region, the
calculator works out the monthly data transfer, the energy used, the monthly
and annual CO2, the trees needed to offset a year's CO2, and a letter grade
for the page weight. It then lists advice texts chosen by page size and
hosting class.

The model has three modules:

- `Factors` (`factors.dfy`): the six regions and two hosting classes as
  datatypes, the two constant tables (`EnergyFactor`, `CarbonIntensity`), and
  lookup of the tables' string keys (`LookupRegion`, `LookupHosting`).
- `Estimator` (`estimator.dfy`): the conversion chain from KB to CO2, the tree
  count as a ceiling, the grade ladder, and the whole estimate (`Estimate`,
  and `EstimateByKeys` when region and hosting are given as keys).
- `Recommendations` (`recommendations.dfy`): the rule list, as a method that
  appends one text at a time (`GenerateRecommendations`) and the function that
  specifies it (`Recommended`).

All arithmetic is over `real`. The decimal constants of the tables (0.81,
0.28, ...) are taken as exact values. Monthly visitors are a `nat`: the
source truncates the count to an integer with `parseInt`, and the model
leaves negative counts out. Page size and pages per visit are any `real`;
the sign properties say what non-negative or positive values give.

The code does not check the region and hosting keys:

- A hosting key that is neither a row of the intensity table nor a member
  every object inherits makes the row lookup give `undefined`. Indexing that
  throws, so nothing new is written and an earlier result stays on the page.
  `EstimateByKeys` returns `Failed`.
- A hosting key naming an inherited member (`constructor`, `toString`,
  `__proto__`, ... listed in `InheritedMembers`) gives that member as the
  row. Indexing it by a region key gives `undefined`, so the figures are NaN
  while the grade is still worked out. `EstimateByKeys` returns `NoFigures`
  with that grade.
- An unknown region key with a known hosting key gives `undefined` factors
  (or, for an inherited member name, a function), so the figures are NaN, while the grade is still worked out.
  `EstimateByKeys` returns `NoFigures` with that grade.
- Two known keys give the full estimate (`Estimated`).

A 1.5 MB page on green hosting gets four entries: the two 1 MB entries and
the two general entries (`MidSizeGreenExample`).

## Model

| member | source | states |
|---|---|---|
| `Factors.EnergyFactor` | calculator.js:13-20 | every region's energy factor is positive and below 1 kWh/GB |
| `Factors.CarbonIntensity` | calculator.js:23-40 | every intensity is positive and below 1 kg/kWh; green entries are at most 0.06, standard ones at least 0.21 |
| `Factors.GreenIntensityBelowStandard` | calculator.js:24-38 | in each region the green intensity is strictly below the standard one |
| `Factors.LookupRegion` | calculator.js:13-20 | a key finds a region only if it is that region's key; an unknown key finds none |
| `Factors.LookupHosting` | calculator.js:23-40 | a key finds a hosting class only if it is that class's key; an unknown key finds none |
| `Factors.LookupRegionKey` | calculator.js:14-19 | each region is found under its own key |
| `Factors.LookupHostingKey` | calculator.js:24-32 | each hosting class is found under its own key |
| `Factors.RegionKeysDistinct` | calculator.js:14-19 | two regions have the same key only if they are the same region |
| `Factors.HostingKeysDistinct` | calculator.js:24-32 | the two hosting classes have different keys |
| `Estimator.PageSizeMB` | calculator.js:49 | the MB figure of a non-negative KB figure is non-negative and no larger, and of a positive one positive and smaller |
| `Estimator.TransferSign` | calculator.js:56 | `MonthlyTransferGB` is non-negative for non-negative size and pages per visit, and positive for positive ones with at least one visitor |
| `Estimator.EnergyBounds` | calculator.js:59 | `EnergyKWh` lies between 0 and the transfer figure, strictly once anything is sent, as every region uses under 1 kWh/GB |
| `Estimator.EmissionBounds` | calculator.js:62 | `EmittedCO2` lies between 0 and the energy figure, strictly once any energy is used, as every intensity is under 1 kg/kWh |
| `Estimator.MonthlyCO2Sign` | calculator.js:56-62 | `MonthlyCO2` is non-negative for non-negative size and pages per visit, and positive once anything is transferred |
| `Estimator.Ceil` | calculator.js:66 | the result is an integer at or above `x` and less than one above it |
| `Estimator.TreesNeeded` | calculator.js:66 | 21 times the count covers the annual CO2 and one tree fewer does not; the count is non-negative for non-negative CO2 and at least 1 for positive CO2 |
| `Estimator.TreesNeededLeast` | calculator.js:66 | any tree count that covers the annual CO2 is at least the computed one |
| `Estimator.TreesNeededMonotone` | calculator.js:66 | more annual CO2 never needs fewer trees |
| `Estimator.TreesNeededExamples` | calculator.js:66 | 21 kg needs 1 tree, 21.01 kg needs 2, 0 kg needs none |
| `Estimator.Estimate` | calculator.js:47-82 | annual CO2 is twelve times monthly; non-negative inputs give non-negative CO2 and tree count; the tree count is the ceiling of annual CO2 / 21 |
| `Estimator.EstimateByKeys` | calculator.js:52-82 | a hosting key that is no table row and no inherited member fails; an inherited-member hosting key, or a known hosting key with an unknown region key, gives no figures but the grade of the page size; two known keys give the estimate for the named hosting and region |
| `Estimator.MonthlyFormula` | calculator.js:49-63 | monthly CO2 is (KB/1000 × visitors × pages per visit / 1000) × energy factor × intensity; annual is 12 × monthly; the grade is taken on KB/1000 |
| `Estimator.MoreVisitorsMoreCO2` | calculator.js:56-63 | with positive page size and pages per visit, more visitors give strictly more monthly and annual CO2 |
| `Estimator.GreenNoMoreThanStandard` | calculator.js:59-62 | green hosting never gives more monthly CO2 than standard, and strictly less when anything is transferred |
| `Estimator.RatingOf` | calculator.js:69-82 | the grade given is one whose half-open band contains the size |
| `Estimator.RatingIsBand` | calculator.js:69-82 | the ladder gives a grade exactly when the size lies in that grade's half-open band, so the bands are exhaustive and disjoint |
| `Estimator.RatingMonotone` | calculator.js:70-81 | a larger page never gets a better grade |
| `Estimator.RatingBoundaries` | calculator.js:70-81 | 0.4999 → A+, 0.5 → A, 0.999 → A, 1 → B, 1.999 → B, 2 → C, 3 → D, 4.999 → D, 5 → F |
| `Estimator.RatingLabel` | calculator.js:71-81 | a label is the grade, a space and a description in parentheses |
| `Estimator.RatingLabelInjective` | calculator.js:71-81 | two grades have the same label text only if they are the same grade |
| `Estimator.WorkedExample` | calculator.js:49-82 | 500 KB, 10000 visitors, 3 pages, standard, Europe: 15 GB, 9.75 kWh, 2.73 kg a month, 32.76 kg a year, 2 trees, grade A |
| `Recommendations.Recommended` | calculator.js:104-126 | the rule list always has at least two entries and ends with the caching entry and then the CDN entry |
| `Recommendations.GenerateRecommendations` | calculator.js:104-126 | the list built by the pushes is the rule list for that size and hosting |
| `Recommendations.RecommendedLength` | calculator.js:107-126 | the length is 2 + 3·[size ≥ 2] + 2·[size ≥ 1] + 2·[standard hosting] |
| `Recommendations.HeavyPageGetsBothGroups` | calculator.js:107-116 | a page of 2 MB or more starts with the three 2 MB entries followed by the two 1 MB entries |
| `Recommendations.RecommendedDistinct` | calculator.js:107-126 | no text appears twice in the list |
| `Recommendations.RecommendedMembership` | calculator.js:107-126 | each group's texts are present exactly when its rule's condition holds; caching and CDN are always present |
| `Recommendations.SizeRulesMatchRating` | calculator.js:70-116 | the 2 MB entries appear exactly for grades C, D and F, the 1 MB entries exactly for grades B and worse |
| `Recommendations.MidSizeGreenExample` | calculator.js:113-126 | a 1.5 MB page on green hosting gets exactly the two 1 MB entries and the two general entries |

## Left out

- Event wiring and the page itself: the `DOMContentLoaded` and `submit` listeners, the initial call, writing text into the page, clearing and filling the advice list, showing the results section and scrolling to it. None of it affects the numbers.
- Reading the form: `parseFloat` and `parseInt` on free text are not modelled. The inputs are `real` and `nat` values, and the two keys are either datatypes or strings looked up by `LookupRegion` and `LookupHosting`.
- Negative visitor counts: `parseInt` can return one, and the source then computes negative CO2 and a negative tree count. The model's visitor count is a `nat`, so these inputs are not covered.
- EstimateByKeys: `Failed` stands for the TypeError the source throws at an unknown hosting key, and `NoFigures` for the NaN figures it shows at an unknown region key or an inherited-member hosting key. `InheritedMembers` lists the members of `Object.prototype`; members an environment adds to it beyond these are treated as unknown keys. No NaN arithmetic and no exception is modelled, and the recommendations the source still lists in the NaN case are given by `Recommended` on their own.
- Floating point: IEEE-754 rounding is not modelled; all arithmetic is exact over `real`. The `toFixed(2)` rounding of the displayed CO2 figures is display formatting and is left out.
- The `rating` argument of `generateRecommendations` is never used by the source, so `GenerateRecommendations` does not take it.
- Fetching a live page to estimate its size, counting its resources and guessing its region from the domain suffix: that code is not part of this model.
