# NYC CO2 intervention simulator — core model

This Dafny project models the computational core of an NYC emissions simulator. The backend
builds a gridded CO2 baseline for New York City. It interprets natural-language prompts
("convert 30% of taxis in Manhattan to EVs") as interventions and applies them to the grid. It
also computes sector-level tonnage figures and summary statistics.

One module per backend file of the core, plus three shared modules:

| module | models |
|---|---|
| `Common` | Option, ASCII lower-casing, substring search, real min/max/abs/clip, truncation toward zero |
| `Geography` | rectangles, the NYC bounding box, the borough rectangle table, key lookup in ordered tables, Euclidean distance over a caller-supplied square root |
| `Grids` | `np.linspace`, cell-by-cell passes over `array2<real>`, `.copy()`, row-major flattening into points |
| `TargetAreas` | `_is_over_water`, `_is_near_water`, `_is_in_target_area` |
| `SpatialPatterns` | `_create_ai_spatial_pattern` and the five `_model_*_intervention` pattern producers |
| `EmissionsGrid` | `NYCEmissionsData`: point emission, station blending, baseline generation and caching, `apply_intervention` |
| `PromptRules` | `AIPromptProcessor._parse_with_rules` and `_generate_description` |
| `UnitConversions` | the conversion constants, converters and the column-unit classifier |
| `DataScraper` | the scraper's coordinate checks, validation filter, calculators and borough/neighbourhood lookups |
| `SectorEmissions` | the sector calculators of `NYCDataLoader`, sector dispatch and map points per sector |
| `EmissionStats` | the sum/min/max/mean statistics, grade and label bands, impacts, baseline comparison, empty record |

The grid engine is imperative, as in the source. `EmissionsModel` is a class holding the cached
coordinates and baseline `array2<real>`. Each numpy pass is a method with a loop. Its `ensures`
gives every cell's new value as a specification function of the old value. Lemmas then state
what the source promises about those functions: the floors, which cells stay unchanged, and
non-negativity. The prompt parser's `for … break` loops, the validation filter, the borough
lookup loop and the aviation and map-point loops are methods too. Each is proved equal to a
recursive specification function, and that function's properties are proved as lemmas.

`np.sqrt` is a parameter of subset type `SqrtFn`, whose values are never negative. The station
kernel `exp(-d²/2)` is a parameter of subset type `GaussFn`. It is a function of the squared
cell distance, valued in (0, 1] and equal to 1 at distance 0. Random noise samples, `hash()`
values and float formatting are function parameters too.

## Model

| member | source | states |
|---|---|---|
| `Common.Trunc` | backend/comprehensive_stats.py:280-281 | `int()` of a float truncates toward zero: for x ≥ 0 the result n satisfies n ≤ x < n+1, and for x < 0 it satisfies n−1 < x ≤ n |
| `UnitConversions.ConvertersLinearMonotone` | backend/unit_conversions.py:61-71 | the miles→km, kBtu→kWh and ft²→m² converters are linear and strictly increasing, and map 0 to 0 |
| `UnitConversions.ConvertEmissionsPerMileToPerKm` | backend/unit_conversions.py:73-75 | the result times `MILES_TO_KM` gives back the per-mile factor, and a positive factor gets strictly smaller |
| `UnitConversions.MetricFactorsAreConverted` | backend/unit_conversions.py:41-54 | every metric emissions factor equals the imperial factor of the same fuel divided by `MILES_TO_KM` |
| `UnitConversions.FuelFactorConverted` | backend/unit_conversions.py:41-54 | for one fuel, both key spellings are present and the metric factor is the imperial one divided by `MILES_TO_KM` |
| `UnitConversions.DetectUnit` | backend/unit_conversions.py:80-101 | the label is always one of kbtu, kwh, sq_ft, sq_m, miles, km, unknown |
| `UnitConversions.DetectUnitCaseInsensitive` | backend/unit_conversions.py:86 | the label depends only on the lower-cased column name |
| `UnitConversions.DetectUnitPrecedence` | backend/unit_conversions.py:88-93 | kbtu exactly when `btu` occurs; kwh and sq_ft each exactly when one of their substrings occurs and no earlier test's do |
| `UnitConversions.DetectUnitLaterPrecedence` | backend/unit_conversions.py:94-99 | sq_m, miles and km each exactly when one of their substrings occurs and every earlier test's substrings are absent |
| `UnitConversions.RedundantMarkers` | backend/unit_conversions.py:88-93 | the `kbtu` and `sq_ft` tests are implied by the shorter `btu` and `_ft` tests |
| `UnitConversions.DetectUnitUnknown` | backend/unit_conversions.py:88-101 | `unknown` exactly when none of the listed substrings occurs |
| `UnitConversions.UnknownHasNoMarker` | backend/unit_conversions.py:88-101 | an `unknown` answer means no listed substring occurs in the lower-cased name |
| `UnitConversions.KnownHasMarker` | backend/unit_conversions.py:88-99 | any other answer means some listed substring occurs |
| `Geography.Distance` | backend/data_processor.py:111 | the Euclidean degree distance is never negative |
| `Geography.Lookup` | backend/data_processor.py:759-760 | a table lookup returns nothing exactly when no entry has the key, and otherwise returns the value of an entry with that key |
| `Geography.LookupFinds` | backend/data_processor.py:759-760 | in a table with distinct keys, looking up an entry's key returns that entry's value |
| `Geography.BoroughBoundsDistinct` | backend/data_processor.py:751-757 | the five borough rectangles have distinct names |
| `Geography.BoroughsInsideCity` | backend/data_processor.py:21-26 | every borough rectangle lies inside the city's bounding box |
| `Geography.ManhattanInsideQueens` | backend/nyc_data_scraper.py:48-54 | Manhattan's rectangle lies inside Queens's, so every point of Manhattan is also in Queens's rectangle |
| `TargetAreas.WaterTestsAgree` | backend/data_processor.py:615-626 | the near-water and over-water tests agree on every point |
| `TargetAreas.BoroughNamesAreNotWildcards` | backend/data_processor.py:747-757 | no borough name lower-cases to `citywide` or `all` |
| `TargetAreas.TargetAreaCases` | backend/data_processor.py:743-763 | `citywide`/`all` in any case, and any name that is not exactly one of the five keys, select every point; a listed borough selects exactly the points of its inclusive rectangle |
| `Grids.Linspace` | backend/data_processor.py:65-66 | n values, the first equal to start and the last to stop, all between them and strictly increasing when start < stop |
| `Grids.LinspaceStep` | backend/data_processor.py:65-66 | with step (stop−start)/(n−1), the (n−1)-th value is stop and every value lies in [start, stop] |
| `Grids.CopyGrid` | backend/data_processor.py:272 | the copy is a fresh array with the same shape and the same cells |
| `Grids.ToPoints` | backend/data_processor.py:250-255 | exactly `len(lats)*len(lons)` points, and point `i*len(lons)+j` is cell (i, j) with its latitude and longitude |
| `SpatialPatterns.SectorKind` | backend/data_processor.py:365-374 | the zone model used is transport, buildings, industry or energy exactly when the sector is that name; any other sector uses the citywide pattern |
| `SpatialPatterns.ZoneEffect` | backend/data_processor.py:421-425 | a zone adds nothing at or beyond its radius, and otherwise between 0 and weight × base |
| `SpatialPatterns.FalloffPositive` | backend/data_processor.py:423-424 | within the radius the linear falloff factor stays in (0.4, 1] |
| `SpatialPatterns.ZoneSum` | backend/data_processor.py:418-425 | with non-negative weights and base, the summed zone effects are non-negative |
| `SpatialPatterns.ZonesOutOfReach` | backend/data_processor.py:418-425 | a point outside every zone's radius gets nothing from the zones |
| `SpatialPatterns.KeywordEffectOf` | backend/data_processor.py:427-446 | the description keyword groups are tested in the source's order; a uniform factor is between 1 and 1.5 |
| `SpatialPatterns.KeywordFactor` | backend/data_processor.py:514-523 | every keyword factor, including green-roof (1.4 in the Manhattan core, 1.1 elsewhere) and port/shipping (1.5 near water), is in [1, 1.5] |
| `SpatialPatterns.PatternCell` | backend/data_processor.py:448-453 | after noise and clipping every pattern cell is in [0, 2] |
| `SpatialPatterns.PatternOutsideTarget` | backend/data_processor.py:419-446 | outside the target area a cell holds only the starting level plus noise, clipped |
| `SpatialPatterns.PatternAwayFromZones` | backend/data_processor.py:418-453 | inside the target but out of every zone's reach, a cell holds the keyword-scaled starting level plus noise, clipped |
| `SpatialPatterns.AddZones` | backend/data_processor.py:418-425 | after the per-zone passes each target cell has gained the zone sum and every other cell is unchanged |
| `SpatialPatterns.ApplyKeywordFactor` | backend/data_processor.py:427-446 | target cells are multiplied by the keyword factor; other cells are unchanged |
| `SpatialPatterns.AddNoiseAndClip` | backend/data_processor.py:448-453 | every cell becomes its old value plus its noise sample, clipped to [0, 2] |
| `SpatialPatterns.PaintPattern` | backend/data_processor.py:381-453 | a fresh grid of the coordinates' shape whose every cell is the pattern cell of its coordinates and noise |
| `SpatialPatterns.ModelSectorPattern` | backend/data_processor.py:378-455 | the transport pattern (and, with their own tables, radii, falloffs and keywords, the buildings, industry and energy patterns at lines 457-538, 540-613 and 628-693): zones of the exact borough or of every borough for `citywide`, each cell as above |
| `SpatialPatterns.CitywideCell` | backend/data_processor.py:695-712 | a citywide cell lies between the base intensity and 1.3 times it: 1.3 in Manhattan's target cells, 1.1 in Brooklyn's, unchanged elsewhere |
| `SpatialPatterns.ModelCitywidePattern` | backend/data_processor.py:695-712 | a fresh grid whose every cell is the citywide cell of its coordinates |
| `SpatialPatterns.SpatialPatternCell` | backend/data_processor.py:348-376 | with base intensity min(pct/100, 1), every pattern cell is at most 2, and at least 0 for a zone sector or a non-negative percentage |
| `SpatialPatterns.CreateAiSpatialPattern` | backend/data_processor.py:348-376 | dispatches on the exact sector name; every cell equals the spatial pattern cell |
| `EmissionsGrid.BoroughTerm` | backend/data_processor.py:114-117 | a borough centre's contribution (flat within 0.1, inverse distance beyond) is non-negative |
| `EmissionsGrid.HotspotTerm` | backend/data_processor.py:128-131 | a hotspot contributes nothing at distance 0.05 or more, and never a negative amount |
| `EmissionsGrid.BoroughTermsNonNegative` | backend/data_processor.py:106-119 | with non-negative intensities the summed borough contributions are non-negative |
| `EmissionsGrid.HotspotTermsNonNegative` | backend/data_processor.py:128-131 | with non-negative intensities the summed hotspot contributions are non-negative |
| `EmissionsGrid.PointEmissionAtLeastBase` | backend/data_processor.py:98-137 | the synthetic emission at any point is at least the base of 20 |
| `EmissionsGrid.HotspotsOutOfReach` | backend/data_processor.py:128-131 | hotspots all at distance ≥ 0.05 contribute nothing |
| `EmissionsGrid.AwayFromHotspots` | backend/data_processor.py:121-137 | away from every hotspot the emission is 20 plus the borough terms, scaled by 0.1 over water |
| `EmissionsGrid.SumBoroughTerms` | backend/data_processor.py:106-119 | the accumulation loop computes the summed borough contributions |
| `EmissionsGrid.SumHotspotTerms` | backend/data_processor.py:128-131 | the accumulation loop computes the summed hotspot contributions |
| `EmissionsGrid.CalculateEmissionAtPoint` | backend/data_processor.py:98-137 | the result is the point emission, and is at least 20 |
| `EmissionsGrid.NearestFrom` | backend/data_processor.py:228-229 | `argmin` scan: the index of a closest coordinate, the first one among ties |
| `EmissionsGrid.Nearest` | backend/data_processor.py:228-229 | the first index whose coordinate is closest to the station's |
| `EmissionsGrid.BlendedNonNegative` | backend/data_processor.py:225-236 | non-negative cells stay non-negative when blended with non-negative readings |
| `EmissionsGrid.BlendedUncovered` | backend/data_processor.py:232-236 | a cell outside every station's 5×5 window keeps its value |
| `EmissionsGrid.BlendStation` | backend/data_processor.py:218-236 | the loops visit only the clamped window rows [max(0,i₀−2), min(n,i₀+3)) and columns; covered cells become 0.7·old + 0.3·2.5·value·weight, all others are unchanged |
| `EmissionsGrid.BlendStations` | backend/data_processor.py:208-238 | the stations are blended one after another; an empty list leaves the grid as it is |
| `EmissionsGrid.BaselineNonNegative` | backend/data_processor.py:78-86 | whatever the noise, a baseline cell is non-negative when the station readings are |
| `EmissionsGrid.FillRow` | backend/data_processor.py:72-75 | row i gets each cell's point emission; other rows are unchanged |
| `EmissionsGrid.FillPointEmissions` | backend/data_processor.py:72-75 | every cell holds the point emission at its coordinates |
| `EmissionsGrid.AddNoiseFloored` | backend/data_processor.py:78-80 | every cell becomes max(old + noise, 0) |
| `EmissionsGrid.SectorFactor` | backend/data_processor.py:282-289 | the sector share is in (0, 1], and 0.35 for a sector the table does not list |
| `EmissionsGrid.VariationFactor` | backend/data_processor.py:320-321 | the variation factor from `hash % 1000` is in [0.7, 1.3) |
| `EmissionsGrid.ReductionMultiplier` | backend/data_processor.py:312-317 | the floored multiplier is at least 0.01, and at most 1 for a non-negative reduction |
| `EmissionsGrid.StepFactor` | backend/data_processor.py:312-322 | the combined multiplier of a reached cell is at least 0.007, and at most 1.3 for a non-negative reduction |
| `EmissionsGrid.PatternStep` | backend/data_processor.py:304-322 | a pattern point never makes a non-negative cell negative |
| `EmissionsGrid.PatternStepBounds` | backend/data_processor.py:310-322 | a reached cell ends between 0.007 and 1.3 times its old value |
| `EmissionsGrid.PatternUnreached` | backend/data_processor.py:299-322 | a cell outside the target, or within 0.08 of no pattern point, keeps its baseline value |
| `EmissionsGrid.PatternNonNegative` | backend/data_processor.py:299-322 | the pattern points never make a non-negative cell negative |
| `EmissionsGrid.FallbackCellBounds` | backend/data_processor.py:330-338 | a cell outside the target keeps its value; a non-negative cell keeps at least 5% of it, and no more than all of it for a non-negative reduction and intensity |
| `EmissionsGrid.FallbackIntensity` | backend/data_processor.py:325-327 | the fallback pattern intensity is at most 2, and non-negative for a non-negative percentage |
| `EmissionsGrid.EffectiveReductionNonNegative` | backend/data_processor.py:275-290 | a non-negative percentage gives a non-negative effective reduction |
| `EmissionsGrid.PatternGrid` | backend/data_processor.py:272-322 | a fresh copy of the baseline on which the pattern points act in order on every cell |
| `EmissionsGrid.FallbackGrid` | backend/data_processor.py:324-338 | a fresh copy of the baseline with each target cell multiplied by max(0.05, 1 − eff·intensity) |
| `EmissionsGrid.InterventionPoints` | backend/data_processor.py:257-346 | the row-major points of a fresh grid, each cell given by the spatial-pattern branch or the fallback branch, with defaults `citywide`, 0% and `transport` |
| `EmissionsGrid.EmissionsModel.constructor` | backend/data_processor.py:37-50 | construction generates the baseline at the given resolution |
| `EmissionsGrid.EmissionsModel.GenerateBaseline` | backend/data_processor.py:52-96 | the cached coordinates are linspaces over the bounding box, and every cached cell is the noisy point emission, floored at 0 and then blended with the stations |
| `EmissionsGrid.EmissionsModel.GetBaselineGrid` | backend/data_processor.py:240-255 | exactly resolution² points, in row-major order, holding the cached cells |
| `EmissionsGrid.EmissionsModel.ApplyIntervention` | backend/data_processor.py:257-346 | row-major points of a modified copy of the baseline; the cached baseline is not modified; the cells follow the branch chosen by the presence of a spatial pattern |
| `PromptRules.FirstBoroughFrom` | backend/ai_processor.py:120-124 | the first borough from position k whose lower-case name occurs in the prompt, or none when no later name occurs |
| `PromptRules.BoroughRuleFirstMatch` | backend/ai_processor.py:120-124 | the borough is `citywide` exactly when no borough name occurs; otherwise it is the first name in list order that occurs |
| `PromptRules.AnyKeyword` | backend/ai_processor.py:136 | true exactly when some keyword occurs in the prompt |
| `PromptRules.FirstSectorFrom` | backend/ai_processor.py:127-138 | the first sector from position k with a keyword in the prompt, or none when no later sector has one |
| `PromptRules.SectorRuleFirstMatch` | backend/ai_processor.py:127-138 | the sector is a listed sector other than `all`: the first in order transport, buildings, industry, energy with a keyword in the prompt, otherwise transport |
| `PromptRules.DigitRun` | backend/ai_processor.py:144 | the longest run of digits starting at a position |
| `PromptRules.SpaceRun` | backend/ai_processor.py:144 | the longest run of whitespace starting at a position |
| `PromptRules.SearchPercent` | backend/ai_processor.py:144 | the leftmost position from p where `\d+\s*%` matches, or none when it matches nowhere after p |
| `PromptRules.DigitsValueDecimal` | backend/ai_processor.py:146 | reading a number's decimal digits gives back the number |
| `PromptRules.ExplicitPercent` | backend/ai_processor.py:144-146 | an explicit percentage exists exactly when the pattern matches somewhere |
| `PromptRules.PercentRuleRange` | backend/ai_processor.py:140-160 | the percentage is always within [0, 60], and one of 20, 25, 30, 50 when nothing matches |
| `PromptRules.PercentRuleAtMatch` | backend/ai_processor.py:144-149 | with a leftmost match at p, the percentage is min(value of its digits, times 0.8 when `convert`/`replace` occurs, 60) |
| `PromptRules.PercentRuleAtSearch` | backend/ai_processor.py:144-149 | once the search finds position p, the percentage is the capped, possibly discounted number captured there |
| `PromptRules.PercentRuleWithoutMatch` | backend/ai_processor.py:150-157 | without a match the percentage is 50 for `all`, else 25 for `half`, else 30 for `double`/`increase`, else 20 |
| `PromptRules.Location` | backend/ai_processor.py:177 | the location is `NYC` for `citywide` and the borough otherwise |
| `PromptRules.DescriptionNamesLocation` | backend/ai_processor.py:175-178 | the description ends with ` emission reduction in ` followed by the location, and a listed borough is its own location |
| `PromptRules.ParseBorough` | backend/ai_processor.py:119-124 | the `for … break` loop yields the first-match borough |
| `PromptRules.ParseSector` | backend/ai_processor.py:126-138 | the `for … break` loop yields the first-match sector |
| `PromptRules.ParsePercent` | backend/ai_processor.py:140-160 | the step-by-step percentage equals the rule, within [0, 60] |
| `PromptRules.StatedAmount` | backend/ai_processor.py:144-149 | with a match, the amount before the cap is the captured number, times 0.8 for a conversion |
| `PromptRules.KeywordAmount` | backend/ai_processor.py:150-157 | without a match, the amount before the cap is the keyword default |
| `PromptRules.ParseWithRules` | backend/ai_processor.py:113-173 | the intervention has exactly the borough, sector, percentage (within [0, 60]) and description given by the rules |
| `DataScraper.NycBoundsAreValid` | backend/nyc_data_scraper.py:393-399 | a point within the NYC bounds is a valid coordinate |
| `DataScraper.ValidatedExactly` | backend/nyc_data_scraper.py:327-336 | the output keeps exactly the inputs with valid coordinates inside the NYC bounds and 0 < emissions < 10000, each as often as it occurs, as an order-preserving subsequence |
| `DataScraper.ValidatedInOrder` | backend/nyc_data_scraper.py:327-336 | the kept records form an order-preserving subsequence of the input |
| `DataScraper.ValidatedCounts` | backend/nyc_data_scraper.py:327-336 | a passing record occurs in the output as many times as in the input, a failing one not at all |
| `DataScraper.ValidatedIdempotent` | backend/nyc_data_scraper.py:327-336 | filtering twice gives the same list as filtering once |
| `DataScraper.ValidateData` | backend/nyc_data_scraper.py:323-336 | the append loop computes the filter, and never lengthens the list |
| `DataScraper.CalculatorsAreProportional` | backend/nyc_data_scraper.py:338-374 | the transport, taxi, building, energy and AQI calculators multiply by 0.4, 0.2, 0.5, 0.4 and 10 |
| `DataScraper.IndustrialEmissions` | backend/nyc_data_scraper.py:353-364 | the table value for a listed facility type, 800 for any other |
| `DataScraper.IndustrialEmissionsRange` | backend/nyc_data_scraper.py:356-364 | the industrial figure is one of the six table values, between 300 and 3000 |
| `DataScraper.FirstBoroughAt` | backend/nyc_data_scraper.py:378-381 | the first rectangle from position k containing the point, or none when no later one does |
| `DataScraper.BoroughFromCoords` | backend/nyc_data_scraper.py:376-382 | the early-return loop gives the first borough in table order whose inclusive rectangle contains the point, `Unknown` exactly when none does |
| `DataScraper.ManhattanBeforeQueens` | backend/nyc_data_scraper.py:378-381 | every point in Manhattan's rectangle classifies as Manhattan although it is also in Queens's |
| `DataScraper.BoroughOfInCity` | backend/nyc_data_scraper.py:376-382 | a classified point lies in the NYC bounds and in the rectangle of the borough it gets |
| `DataScraper.NeighborhoodFromCoords` | backend/nyc_data_scraper.py:384-391 | the first listed neighbourhood of a known borough, `Unknown` exactly when the borough is not known |
| `DataScraper.NeighborhoodOfPoint` | backend/nyc_data_scraper.py:384-391 | a point gets a neighbourhood exactly when it gets a borough |
| `SectorEmissions.Reduce` | backend/data_loader.py:204-222 | savings = baseline·pct/100 and reduced + savings = baseline; the percentage is reported as |pct|; `is_increase` holds exactly when direction is `increase`; defaults 20 and `decrease` |
| `SectorEmissions.ReduceDefaults` | backend/data_loader.py:204-214 | without a percentage 80% of the baseline remains; a negative percentage raises the figure; a percentage in [0, 100] keeps it within [0, baseline] |
| `SectorEmissions.TargetAirports` | backend/data_loader.py:170-177 | the targets are [JFK], [LaGuardia] or both |
| `SectorEmissions.TargetAirportsCases` | backend/data_loader.py:170-177 | JFK is targeted exactly when `jfk` is mentioned or no LaGuardia name is; LaGuardia exactly when `jfk` is not mentioned |
| `SectorEmissions.AirportEmissionsDefaults` | backend/data_loader.py:189-199 | with default fleet shares and LTO figures an airport emits 1.325 t per operation, and nothing without operations |
| `SectorEmissions.AirportEmissionsNonNegative` | backend/data_loader.py:189-199 | non-negative operations, shares and LTO figures give non-negative emissions |
| `SectorEmissions.AviationBaselineUntargeted` | backend/data_loader.py:184-187 | airports that are not targeted add nothing |
| `SectorEmissions.AviationBaselineNonNegative` | backend/data_loader.py:180-199 | the aviation baseline is non-negative when every airport's figures are |
| `SectorEmissions.SumAviationBaseline` | backend/data_loader.py:180-199 | the loop with `continue` computes the aviation baseline |
| `SectorEmissions.AviationEmissions` | backend/data_loader.py:149-223 | the aviation result is the reduction applied to the targeted airports' baseline |
| `SectorEmissions.BuildingSharesSumToOne` | backend/data_loader.py:343-349 | the five borough factors sum to 1 |
| `SectorEmissions.EstimateBuildingEmissions` | backend/data_loader.py:337-368 | 30,000,000 scaled by the borough factor for the five exact names, unscaled for any other name including `citywide`, then reduced |
| `SectorEmissions.MetricCancels` | backend/data_loader.py:390-411 | converting distances to km and factors to per-km gives the same tonnage as working in miles |
| `SectorEmissions.TransportBaselineInMiles` | backend/data_loader.py:407-429 | the fleet, taxi and bus baselines equal their per-mile imperial computations |
| `SectorEmissions.EnergyEmissions` | backend/data_loader.py:450-488 | annual MWh = demand·8760 and baseline = MWh·factor/1000, with defaults 7000 and 350 giving 21,462,000 t |
| `SectorEmissions.IndustryEmissions` | backend/data_loader.py:490-528 | 5,000,000 t unless the subsector is `waste`, where tons·landfill share·methane factor apply (4,550,000 t by default) |
| `SectorEmissions.NatureSequestration` | backend/data_loader.py:562-583 | trees = 683788·magnitude/100, baseline 0, savings 0.02·trees and reduced −savings |
| `SectorEmissions.GenericEmissions` | backend/data_loader.py:585-603 | a 50,000,000 t baseline, reduced |
| `SectorEmissions.SectorDispatch` | backend/data_loader.py:545-560 | dispatch ignores letter case; any unlisted sector gets the 50,000,000 t baseline; buildings without a dataset answer use the estimate |
| `SectorEmissions.GetEmissionsForSector` | backend/data_loader.py:530-560 | the dispatch picks the calculator the sector names |
| `SectorEmissions.EveryPoint` | backend/data_loader.py:618-637 | one point per entry, with the default coordinates 40.7/−73.9 where missing |
| `SectorEmissions.LocatedPointsShape` | backend/data_loader.py:639-662 | one point per entry with a non-empty location, each carrying the given intensity |
| `SectorEmissions.SpatialSpecShape` | backend/data_loader.py:616-664 | one point per airport and per substation, one per facility or port with a location, intensities 1.0/0.8/0.7/0.9, nothing for any other sector |
| `SectorEmissions.AppendPoints` | backend/data_loader.py:639-650 | the append loop adds the points of a location list, skipping empty locations when asked |
| `SectorEmissions.SpatialDataForSector` | backend/data_loader.py:605-664 | the loops produce exactly the sector's points |
| `EmissionStats.Values` | backend/comprehensive_stats.py:92 | one value per point, in order |
| `EmissionStats.Minimum` | backend/comprehensive_stats.py:180 | an element no greater than any other |
| `EmissionStats.Maximum` | backend/comprehensive_stats.py:181 | an element no smaller than any other |
| `EmissionStats.SumBetween` | backend/comprehensive_stats.py:177 | values in [lo, hi] sum to between n·lo and n·hi |
| `EmissionStats.MeanBetweenExtremes` | backend/comprehensive_stats.py:177-181 | min ≤ mean ≤ max for a non-empty list |
| `EmissionStats.BasicStatistics` | backend/comprehensive_stats.py:174-184 | count and total of the values, with min ≤ mean ≤ max bounding every value |
| `EmissionStats.CarbonGradeMonotone` | backend/comprehensive_stats.py:266-276 | the grade is one of A, B, C, D, F and never improves as the tonnage grows |
| `EmissionStats.EnvironmentalImpactOf` | backend/comprehensive_stats.py:258-283 | tons = total·0.001, the grade of those tons, and the car and tree equivalents truncated toward zero |
| `EmissionStats.AqiLabelMonotone` | backend/comprehensive_stats.py:293-304 | the label is one of the five bands and never improves as the mean grows |
| `EmissionStats.HealthImpactOf` | backend/comprehensive_stats.py:285-310 | deaths = total·0.0001, asthma cases ten times that, and the AQI label of the mean |
| `EmissionStats.EconomicImpactOf` | backend/comprehensive_stats.py:312-325 | health costs = total·0.15 (tons·150); productivity and property losses are 0.3 and 0.1 of them |
| `EmissionStats.ComparisonStatistics` | backend/comprehensive_stats.py:327-340 | reduction = Σbaseline − Σcurrent, percent = reduction/Σbaseline·100, score = percent/10; no result exactly when Σbaseline is 0 |
| `EmissionStats.ComparisonSigns` | backend/comprehensive_stats.py:333-339 | equal totals give all zeros; a smaller current total against a positive baseline gives a positive reduction |
| `EmissionStats.EmptyStats` | backend/comprehensive_stats.py:342-358 | the all-zero record with `N/A` grade and AQI label |
| `EmissionStats.ComprehensiveStatsCases` | backend/comprehensive_stats.py:82-172 | an empty list gives the empty record; a non-empty one has a real grade and label, min ≤ average ≤ max, the sum as total, and a record the baseline does not change |

## Left out

- Network and external services are not modelled: `fetch_openaq_data`, the `_scrape_*` coroutines, `scrape_real_nyc_data`, the OpenAI parser and client, and the FastAPI applications (`main.py`, `main_advanced.py`). Station readings enter the baseline as a `seq<Station>` parameter, which is empty when nothing could be fetched.
- The JSON/CSV/GeoJSON loaders and the pandas building dataset are not modelled. The loader's cache is a `LoaderCache` value; the dataset's answer for buildings is an `Option<SectorResult>` input, and the estimate is used when it is absent.
- `np.random.normal` noise, `hash()`-derived seeds and variations, and `np.sqrt`/`np.exp` are parameters, constrained only as described above. The noise's distribution and the seeding are not modelled.
- `_add_ai_variation` is not modelled: nothing in the backend calls it.
- `get_last_update_time`, `last_update`, `data_freshness` and all other timestamps are not modelled. `DataPoint.timestamp` is an opaque `int`.
- Float formatting (`f"{percent:.0f}"`, `format_stats_for_display`) is not modelled: the description takes the formatter as a parameter.
- Median, standard deviation, percentiles, the spatial area figures, and the random borough and sector breakdowns of the statistics engine are not modelled.
- Arithmetic is exact real arithmetic. Floating-point rounding is not modelled.
- `Common.Lower`: lower-cases ASCII letters only; Python's `str.lower` also folds non-ASCII letters.
- `PromptRules.IsDigit`: `\d` and `\s` are taken as ASCII digits and ASCII whitespace; Python's `re` also accepts other Unicode digits and spaces.
- `EmissionsGrid.EmissionsModel.ApplyIntervention`: the modified grid is a ghost out-parameter, because the source returns only its points.
- `EmissionsGrid.EmissionsModel.GetBaselineGrid`: the regeneration when the cache is empty is not modelled. The class invariant keeps the cache filled from construction on, so that branch cannot run.
- `EmissionStats.ComparisonStatistics`: returns no result for a zero baseline total, where numpy would produce `inf` or `nan`.
- `EmissionStats.ComprehensiveStats`: the comparison result is not part of the record, as in the source, which merges it into a dictionary that is then discarded.
- `EmissionsGrid.InterventionPoints`: the fallback branch passes the fraction (already divided by 100) as the percentage, so the pattern's base intensity is pct/10000. This is modelled as written.
