# RMOL: seat protection from forecast to bid price

RMOL decides how many seats of a cabin to keep back for higher fares. This
project models its calculation core in Dafny and proves what the pieces promise,
alone and together:

1. **Forecast.** The demand of a fare family is dispatched to its classes by
   sell-up factors, and collected again by the policies (`DemandCurves`,
   `Utilities`, `NewQFF`, `Forecaster`, `PolicyDemand`, `ForecastMeaning`).
2. **Marginal revenue transformation.** A gift-wrapping search over the policies
   builds their efficient frontier; each edge becomes a nesting node with a yield
   and a demand (`ConvexHull`, `Nesting`, `NestedSlopes`, `PolicyHelper`,
   `MarginalRevenueTransformation`, `HullConservation`).
3. **Virtual classes.** The classes of a leg are grouped by rounded yield
   (`VirtualClasses`, `Optimiser`).
4. **Optimisation.** Monte-Carlo integration (`BidPriceBands`,
   `BidPriceTheorems`, `JointDraws`, `UnsortedBand`, `MCOptimiser`) or EMSR
   (`SeatValues`, `Emsr`) turns the virtual classes into bid prices, protections
   and booking limits.

`ForecastRun`, `Pipeline`, `LegOptimisation` and `FlightRun` join the pieces. A
forecast in which no class has demand without variance leaves a hull that meets
every assertion of the adjustment unless one of its steps falls back, which takes
three families; the adjustment leaves classes that the grouping accepts; the
virtual class list meets every assertion of EMSR-b, with deviations that are
positive, and those of the integration exactly when its yield levels do. Demand,
variance and revenue are conserved from the forecast through the hull to the
virtual classes, and `ForecastAndOptimise` ends with that. `ThreeFamilies` shows
that a cabin with a fall-back off the hull runs too.

The inventory objects are classes (`Inventory`); the code that updates them, or
works in place on an array, is imperative and proved against functions on
values, about which the theorems are stated. `Sequences` and `Totals` hold the
sums, counts and sorts that all modules share. A `double` is a `real`. Standard
deviations are carried as variances, since every square root in the code is of a
sum or a difference of squares. The normal distribution, `exp` and `log`, random
samples and the estimates of historical demand are parameters with stated
bounds or monotonicity.

Where the code does not do what it seems to promise, the code is kept:

- `optimalOptimisationByMCIntegration` does not sort its samples before the last
  loop, while its sibling does. The price vector still never rises
  (`OptimalPricesFall`), but prices can be wrong (`UnsortedLastBandMisprices`);
  `LastBandExactIff` says exactly when a run is right, and
  `RunsExactIffInSeatOrder` when runs at every capacity are.
  `std::lower_bound` on unsorted samples is the usual halving loop.
- A negative protection is cast to an unsigned index; `ToIndex` does the same, so
  every seat left is priced in that band.
- `isNested` leaves its loop at the first equal class. It is weaker than
  inclusion and not transitive (`NestedIsNotAnOrder`), by exactly one condition
  (`IncludedIsNestedWithoutFallBack`). So a step of the nested hull can fail the
  assertion of the node construction (`NestedStepPasses`), and the hull can get
  steeper (`NestedSlopesCanRise`): over all demands and revenues it cannot exactly
  when the test is transitive on the list (`SlopesFallIffTransitive`), and a hull
  that passes the assertions never does (`NestedYieldsFall`).
- The floor of the sibling's last band can lift a price above an earlier one
  (`FloorCanLift`); `FlooredPricesFall` says exactly when it does not.
- The comment on the last nesting node speaks of an adjusted yield of zero. The
  code sets only the node's yield; the classes keep theirs, and so they do here.

## Model

| member | source | states |
|---|---|---|
| FlightRun.PrepareAndOptimise | rmol/service/RMOL_Service.cpp:661-677 | A run over a segment-cabin and its leg builds the nodes of the hull and adjusts their classes. It succeeds exactly when some adjusted yield is at least one half; it then leaves virtual classes that conserve the hull (`Pipeline.Conserves`) and whose variances and aggregate variances are positive, and either the price vector and protections of the integration of their demands, non-increasing with one price per seat, or the EMSR-b protections. What it asks is what the assertions ask of the hull that the search finds, and no more of other policies. |
| FlightRun.ForecastAndOptimise | rmol/service/RMOL_Service.cpp:649-677 | The whole run from the estimates on, with either method: no assertion fails on the way when the nested hull at the predicted demands and variances meets those of the adjustment and, for Monte-Carlo, its yield levels pass. With estimates that vary, the former only asks that no step of that hull falls back, and of two families nothing. The run leaves the given forecasts; when all yields of the hull round up, the virtual classes carry those of the classes that the end of the hull opens. |
| ForecastRun.PointsPredicted | rmol/command/NewQFF.cpp:247-298 | The forecast puts every policy where the curves and the estimates predict it: its demand and its variance are the sums of the shares of its open classes. |
| ForecastRun.PredictionExists | rmol/command/NewQFF.cpp:64-158 | With distinct class codes there is such a prediction, for any estimates. |
| ForecastRun.ForecastMeetsAssertions | rmol/command/MarginalRevenueTransformation.cpp:205-224 | When no forecast is negative and every class with demand has variance, the nested hull meets the assertions of the adjustment if and only if none of its steps falls back; with at most two families none does. |
| ForecastRun.ForecastCabin | rmol/command/Forecaster.cpp:100-120 | Reset and forecast leave zero class means, in every class the mean and variance that the intervals give it, and policies that are the sums of their open classes. When no used estimate is negative and an estimate with demand comes with one that has variance, the hull meets the assertions unless a step falls back. |
| ForecastRun.VirtualClassesCarryForecast | rmol/command/NewQFF.cpp:262-298 | When every yield rounds up, the virtual classes carry in total the forecasts of exactly the classes that the last policy of the hull opens. |
| ForecastRun.GainedFromZero | rmol/command/NewQFF.cpp:136-154 | From zero, every class ends with the mean and variance that the intervals give it; with estimates that are not negative it has demand if and only if it receives a share and a used interval has demand, and likewise for the variance. |
| ForecastRun.GivenSign | rmol/command/NewQFF.cpp:136-154 | The same for what any number of intervals give: classes with the yield of the next higher one receive nothing, all others receive something as soon as an interval has something. |
| ThreeFamilies.ThreeFamiliesAreClean | rmol/command/MarginalRevenueTransformation.cpp:118-152 | A cabin of three families meets the conditions of a run although two of its policies fall back (`FallsBackOffTheHull`): they are not in a row on the hull. |
| Pipeline.PipelineConserves | rmol/command/MarginalRevenueTransformation.cpp:205-243 | The total mean of the virtual classes is at most last-minus-empty demand of the hull, and equals it if and only if every adjusted yield is at least one half; then the variance is conserved too, and rounding moves the revenue by at most half a unit of yield for every unit of demand. |
| Pipeline.VirtualClassesCarryEdges | rmol/command/Optimiser.cpp:182-241 | Whatever the yields, the virtual classes hold every measure of the demand (mean, variance, revenue at the rounded yield) of exactly the hull edges that round to a positive level. |
| Pipeline.KeptFromEdges | rmol/command/Optimiser.cpp:192-199 | An adjusted cabin has a class for the virtual class list if and only if some hull edge has a yield of at least one half. |
| Pipeline.PrepareDemandInput | rmol/command/MarginalRevenueTransformation.cpp:27-36 | The nested hull is built and adjusted; on classes without demand the first class of every node carries its edge and no other class carries demand; the yields are positive and never rise. |
| MCOptimiser.OptimalOptimisationByMCIntegration | rmol/bom/MCOptimiser.cpp:28-150 | The in-place run leaves exactly the price vector, protections and booking limits that the value-level rounds define, for any samples on which its assertions hold. |
| JointDraws.BidPriceIsConditionalShare | rmol/bom/MCOptimiser.cpp:104-121 | What the comment on the bid price promises, for every seat of the whole vector: the price is the yield of the band times the share of the joint demand draws that reach the seat, among the draws that went past every earlier protection. The seat lies past all earlier protections and up to that of its band. The sibling raises the price to 1 in its last band; the optimal run has it there when `LastBandExact` holds. |
| JointDraws.RoundsExist | rmol/bom/MCOptimiser.cpp:82-131 | The partial sums of a round are the demands of joint draws, one sample of each class so far and no sample twice; from round to round exactly as many draws as the cut are dropped, none above the protection, and none below it goes on. |
| JointDraws.CountedPriceIsShare | rmol/bom/MCOptimiser.cpp:111-121 | Every counted price times the number of samples is the yield times the number of samples that reach its seat. |
| MCOptimiser.ProtectionIsMiddle | rmol/bom/MCOptimiser.cpp:96-104 | After a run every protection is as far above the last dropped sample as below the first kept one, and the next class is limited to the other seats. |
| MCOptimiser.Round | rmol/bom/MCOptimiser.cpp:85-131 | One round on the array: sorted, protection as the average around the cut, one price per seat of the band by a plain count, and the kept tail plus the next samples at the front. |
| MCOptimiser.SearchHolder | rmol/bom/MCOptimiser.cpp:113-114 | The loop of the resumed search returns what the recursive definition of the lower bound gives, on any samples. |
| MCOptimiser.PriceBand | rmol/bom/MCOptimiser.cpp:110-121 | A band emits a price for every seat from the first open one to the smaller of protection and capacity, from the share of samples that its resumed search leaves (the share is pinned by `CountedPriceIsShare`). |
| MCOptimiser.ShiftHolder | rmol/bom/MCOptimiser.cpp:123-130 | The in-place loop leaves the samples past the cut plus the next demand, although it overwrites what it reads. |
| BidPriceBands.SearchCounts | rmol/bom/MCOptimiser.cpp:111-120 | Fast form refines simple one: on ascending samples the resumed searches of a whole band equal a fresh count of the samples that reach each seat. |
| BidPriceBands.ResumedSearchCounts | rmol/bom/MCOptimiser.cpp:113-116 | The resumed lower bound equals a full one, and the samples past it are those that reach the seat. |
| UnsortedBand.LastBandExactIff | rmol/bom/MCOptimiser.cpp:137-149 | The last loop misses a sort. A run prices every seat as with it if and only if the resumed searches compare only samples on their own side of each seat's rank, or the last yield is zero. |
| UnsortedBand.ReachExact | rmol/bom/MCOptimiser.cpp:139-148 | The same for the searches of a band: they count right at all its seats exactly then. |
| UnsortedBand.SearchesRightIffInSeatOrder | rmol/bom/MCOptimiser.cpp:139-148 | When no two samples end on the same seat, the resumed searches are right at every capacity if and only if the samples are in seat order. |
| UnsortedBand.RunsExactIffInSeatOrder | rmol/bom/MCOptimiser.cpp:137-149 | For the run itself: when no two of its last partial sums end on the same seat, it prices every seat right at every capacity if and only if these sums are in seat order from the first seat of the last band on, or the last yield is zero. |
| UnsortedBand.FirstSeatIs | rmol/bom/MCOptimiser.cpp:110-113 | The capacity alone moves the first seat of a band: it is the first one past all earlier protections, or the one past the capacity. |
| UnsortedBand.LastBandExactInSeatOrder | rmol/bom/MCOptimiser.cpp:137-149 | Partial sums in seat order, whatever their order between two seats, are priced right. |
| UnsortedBand.LastBandExactWhenAscending | rmol/bom/MCOptimiser.cpp:123-149 | Ascending samples of the last class are enough for that. |
| UnsortedBand.UnsortedLastBandMisprices | rmol/bom/MCOptimiser.cpp:137-149 | A concrete run in which the missing sort prices a seat at 0 that is worth 50. |
| BidPriceTheorems.OptimalPricesFall | rmol/bom/MCOptimiser.cpp:65-149 | The whole price vector over all bands has one price for every seat up to the capacity, never rises and is never negative, although the last band searches unsorted samples. |
| BidPriceBands.RoundInvariant | rmol/bom/MCOptimiser.cpp:78-131 | Before every round: one price for each seat before the next open one, non-increasing, none below the coming yield unless all seats are priced. |
| BidPriceBands.BandWithinYields | rmol/bom/MCOptimiser.cpp:88-121 | Every price of band j lies between the yield of the next class and that of class j. |
| BidPriceBands.CutKeepsShare | rmol/bom/MCOptimiser.cpp:88-91 | The cut leaves at least the share of samples that the next yield needs, which is what orders the bands. |
| BidPriceTheorems.YieldsPositive | rmol/bom/MCOptimiser.cpp:82-94 | The assertions force every yield after a passed round to be positive: the division is safe. |
| BidPriceTheorems.GapsCoveredPass | rmol/bom/MCOptimiser.cpp:82-94 | The assertions hold in every round when consecutive yields are at least top yield over sample count apart. |
| BidPriceTheorems.TwoClassesPass | rmol/bom/MCOptimiser.cpp:82-94 | For two classes that condition is exact. |
| BidPriceTheorems.AssertionsReadSizes | rmol/bom/MCOptimiser.cpp:82-94 | Whether the assertions hold depends on the yields and the numbers of samples alone. |
| BidPriceTheorems.ProtectionsRise | rmol/bom/MCOptimiser.cpp:96-104 | With non-negative samples the cumulated protections never fall along the classes. |
| BidPriceTheorems.ProtectionsNonNegative | rmol/bom/MCOptimiser.cpp:96-110 | Non-negative samples never give a negative protection, so the unsigned index does not wrap. |
| BidPriceBands.ToIndex | rmol/bom/MCOptimiser.cpp:110 | A protection as a seat index: exact in the non-negative `int` range, an index past every capacity otherwise (the cast of a negative one). |
| MCOptimiser.RunControls | rmol/bom/MCOptimiser.cpp:62-104 | After a run on non-negative samples protections are non-negative and rise, booking limits fall from the availability on. |
| MCOptimiser.GenerateDemandVector | rmol/bom/MCOptimiser.cpp:153-171 | One draw of the given mean and deviation for every position when the deviation is positive, the mean otherwise. |
| MCOptimiser.SampledDemandIs | rmol/bom/MCOptimiser.cpp:176-206 | Every yield level gets 10000 samples of its own demand. |
| MCOptimiser.OptimisationByMCIntegration | rmol/bom/MCOptimiser.cpp:174-316 | The sibling run on the yield-level demands: floored last band, current bid price set to the last price, previous one kept. |
| MCOptimiser.PriceLastBand | rmol/bom/MCOptimiser.cpp:275-297 | The sticky minimum of the last loop equals a pointwise maximum with 1.0. |
| BidPriceTheorems.FlooredPricesFall | rmol/bom/MCOptimiser.cpp:213-297 | The floored vector never rises if and only if the last yield is at least 1.0, or the last band is empty, or the last earlier price is not below 1.0. |
| BidPriceTheorems.FloorCanLift | rmol/bom/MCOptimiser.cpp:213-297 | A concrete run in which it rises: the prices are 1.0, 0.5 and 1.0. |
| BidPriceTheorems.FlooredPricesCoverSeats | rmol/bom/MCOptimiser.cpp:201-297 | The sibling emits exactly one price for every seat. |
| BidPriceTheorems.PricesAboveYield | rmol/bom/MCOptimiser.cpp:213-234 | Without negative protections no earlier price is below the yield of a later round. |
| BidPriceTheorems.CurrentBidPricePositive | rmol/bom/MCOptimiser.cpp:299-311 | Non-negative samples leave a positive current bid price, which the next call divides by. |
| Emsr.HeuristicOptimisationByEmsr | rmol/bom/Emsr.cpp:108-171 | The method leaves the highest marginal values as prices and, with two classes or more, the protections and booking limits of the walk, whose last turn reads the yield and sets the limit of whatever stands past the end of the list. |
| Emsr.WalkPastEnd | rmol/bom/Emsr.cpp:155-169 | Whatever stands there, all other controls are those of the consecutive classes; the last class protects the seats priced above the lowest yield met, that one included. |
| Emsr.EmsrIsOptimal | rmol/bom/Emsr.cpp:127-149 | For every seat count the sum of the prices bounds the expected revenue (yield times the sum of the tails) of every split of at most that many seats among the classes, and some split of exactly that many earns it. |
| SeatValues.BidPricesBoundEverySplit | rmol/bom/Emsr.cpp:127-149 | No allocation of prefixes earns more than the best merged values, for any tables. |
| SeatValues.BidPricesAreAttained | rmol/bom/Emsr.cpp:127-149 | With falling tables some allocation, ties shared out, attains the sum of the best values. |
| Emsr.Walk | rmol/bom/Emsr.cpp:161-166 | The inner walk stops at the larger of its start and the number of prices above the yield. |
| Emsr.WalkRises | rmol/bom/Emsr.cpp:152-169 | Cumulated protections never fall, whatever the order of the yields. |
| Emsr.WalkControls | rmol/bom/Emsr.cpp:152-169 | With falling yields a class protects exactly the seats priced above the next yield; protections rise and booking limits fall. |
| Emsr.DearSeatsProtected | rmol/bom/Emsr.cpp:161-168 | With falling yields a class protects a seat if and only if its price is above the next yield; the next class is limited to the other seats. |
| Emsr.HeuristicOptimisationByEmsrB | rmol/bom/Emsr.cpp:64-105 | Each class is protected by the quantile of the aggregate of all classes down to it against the next class. |
| Emsr.LittlewoodRule | rmol/bom/EmsrUtils.cpp:53-75 | Each protection balances: the yield of the aggregate times the probability that its demand exceeds the protection is the yield of the next class. |
| LegOptimisation.ProtectionsBalance | rmol/bom/EmsrUtils.cpp:53-75 | The same of every virtual class list after EMSR-b, for the protections that the run leaves. |
| Emsr.ComputeAggregatedVirtualClass | rmol/bom/EmsrUtils.cpp:18-49 | The in-place update turns the aggregate into the combination of both classes. |
| Emsr.AggregateTotals | rmol/bom/EmsrUtils.cpp:18-49 | After class j the aggregate holds the sum of means, the sum of variances and the mean-weighted revenue of the classes 1 to j. |
| Emsr.AggregateWithoutDemand | rmol/bom/EmsrUtils.cpp:31-38 | An aggregate of classes without demand has the yield of the last one. |
| Emsr.AggregateYieldBetween | rmol/bom/EmsrUtils.cpp:31-38 | With falling yields and non-negative means the aggregate yield lies between the last and the first yield. |
| Emsr.YieldRatioInside | rmol/bom/EmsrUtils.cpp:59-65 | With positive falling yields the ratio given to the quantile is strictly between 0 and 1. |
| MarginalRevenueTransformation.BuildConvexHull | rmol/command/MarginalRevenueTransformation.cpp:39-94 | The search ends and its result is a hull: from the empty policy the first steepest step, until nothing with more demand and revenue is left. |
| MarginalRevenueTransformation.BuildNestedConvexHull | rmol/command/MarginalRevenueTransformation.cpp:97-153 | The same with only steps that the nesting test accepts. |
| MarginalRevenueTransformation.FindNextPolicy | rmol/command/MarginalRevenueTransformation.cpp:62-83 | The inner loop finds the first steepest policy, or none exactly when nothing follows. |
| ConvexHull.NothingOnEdge | rmol/command/MarginalRevenueTransformation.cpp:126-142 | On a list ordered by demand no policy that could follow lies on an edge between its ends: the hull stops at every policy on its line. |
| ConvexHull.EarlierIsFlatter | rmol/command/MarginalRevenueTransformation.cpp:126-142 | On any list a policy that could follow and is listed before the one taken lies strictly below the edge. |
| ConvexHull.LineMakesTwoEdges | rmol/command/MarginalRevenueTransformation.cpp:62-83 | Three policies on one line make two edges. |
| ConvexHull.ChainRises | rmol/command/MarginalRevenueTransformation.cpp:72-91 | Demand and revenue grow strictly along every hull, nested or not. |
| ConvexHull.SlopesFall | rmol/command/MarginalRevenueTransformation.cpp:56-93 | The slopes never rise along a hull that could have skipped any of its policies: the plain hull always, and every nested hull with included open sets. |
| ConvexHull.HullDominates | rmol/command/MarginalRevenueTransformation.cpp:56-93 | Every policy with at least the empty demand lies on or below every edge line if and only if no policy with the empty demand earns more than the empty one. |
| ConvexHull.HullEndsAtMostRevenue | rmol/command/MarginalRevenueTransformation.cpp:85-92 | No policy that could have followed the hull and has at least the empty demand earns more than its end; for the plain hull no policy at all. |
| ConvexHull.HullUnique | rmol/command/MarginalRevenueTransformation.cpp:56-93 | Two results of the search on the same policies are the same list. |
| ConvexHull.FilterKeepsHull | rmol/command/MarginalRevenueTransformation.cpp:118-152 | When the nesting test accepts every step of the plain hull, the nested search returns the same hull. |
| ConvexHull.TransformationIsExact | rmol/command/MarginalRevenueTransformation.cpp:205-225 | At every bid price the edges as independent classes are worth what the best policy nets among those that could have followed the hull, and the hull policy past the last steeper edge is the best. |
| HullConservation.NestedNodesWorthBest | rmol/command/MarginalRevenueTransformation.cpp:208-243 | The same for the nodes of the adjusted cabin, along every nested hull that the adjustment accepts: no policy that nests on the hull up to its demand nets more, and one nets exactly that. |
| HullConservation.NestedNodesWorthBestOfAll | rmol/command/MarginalRevenueTransformation.cpp:208-243 | When the nesting test accepts every step of the plain hull, the nodes are worth the best of all policies of the cabin. |
| NestedSlopes.IncludedSlopesFall | rmol/command/MarginalRevenueTransformation.cpp:118-152 | Along any nested hull whose consecutive open sets are included the slopes never rise, whatever the rest of the policy list is. |
| NestedSlopes.SlopesFallIffTransitive | rmol/command/MarginalRevenueTransformation.cpp:118-152 | Over all demands and revenues the slopes of the nested hull never rise if and only if the nesting test is transitive on the policy list. |
| NestedSlopes.AcceptedIncludedTransitive | rmol/bom/PolicyHelper.cpp:220-282 | A list on which no accepted pair falls back is transitive. |
| NestedSlopes.NestedSlopesCanRise | rmol/command/MarginalRevenueTransformation.cpp:118-152 | A nested hull that gets steeper (slopes 10, 2 and 12), with the demand of every policy that of its open classes; its second step falls back, so it fails the class assertion. |
| HullConservation.NestedYieldsFall | rmol/command/MarginalRevenueTransformation.cpp:222-224 | The adjusted yields are positive and never rise along every nested hull that the adjustment accepts. |
| HullConservation.EdgesConserve | rmol/command/MarginalRevenueTransformation.cpp:213-223 | Adjusted means, variances and yield times mean add up to last-minus-first demand, variance and revenue over any hull. |
| HullConservation.HullIsNested | rmol/command/MarginalRevenueTransformation.cpp:118-152 | A nested hull whose steps differ and never fall back has included open sets and meets the assertions of the node construction. |
| HullConservation.CabinTotal | rmol/command/MarginalRevenueTransformation.cpp:227-243 | What only first classes of nodes carry adds up over the cabin as over the nodes: no class leads two nodes or hides in the last one. |
| MarginalRevenueTransformation.AdjustYieldAndDemand | rmol/command/MarginalRevenueTransformation.cpp:156-279 | Fails exactly on a hull of one policy; otherwise node k holds the classes between the policies k and k+1 with the edge's yield and demand, the last node the rest, it exists exactly when classes remain, and all other classes are unchanged. |
| MarginalRevenueTransformation.FillNodes | rmol/command/MarginalRevenueTransformation.cpp:183-244 | The loop over the hull: one fresh node per edge, and a counter equal to the classes added. |
| Pipeline.StepGoesToPolicyClass | rmol/command/MarginalRevenueTransformation.cpp:205-243 | The growth in mean and variance of every hull step goes to the class that the next policy names in the first family in which the two policies differ, at the yield that earns the growth in revenue. |
| MarginalRevenueTransformation.NodeIsLedByPolicy | rmol/command/MarginalRevenueTransformation.cpp:230-243 | That class is the first of the node. |
| MarginalRevenueTransformation.NodesPartitionCabin | rmol/command/MarginalRevenueTransformation.cpp:183-275 | The nodes and the last node rearrange the cabin's class list, each class once: the class-count assertion holds. |
| MarginalRevenueTransformation.NodesApart | rmol/command/MarginalRevenueTransformation.cpp:205-243 | No class of a node is in an earlier node, so no adjustment overwrites another. |
| PolicyHelper.DiffBetweenTwoPolicies | rmol/bom/PolicyHelper.cpp:23-50 | Appends exactly the classes between the two policies, family by family from low to high. |
| PolicyHelper.DiffBetweenBookingClassAndPolicy | rmol/bom/PolicyHelper.cpp:95-160 | Appends the classes up to the second policy's class in the family, or all above; both exceptions are results. |
| PolicyHelper.IntersectionBetweenPolicyAndBookingClassList | rmol/bom/PolicyHelper.cpp:53-92 | Finds the first class of the family that the policy names, or reports that there is none. |
| PolicyHelper.MeetingIsLevel | rmol/bom/PolicyHelper.cpp:135-137 | With distinct codes that class is the policy's level in the family. |
| PolicyHelper.ComputeLastNode | rmol/bom/PolicyHelper.cpp:163-217 | Appends exactly the classes that the policy does not open, from the last family back. |
| PolicyHelper.IsNested | rmol/bom/PolicyHelper.cpp:220-282 | The loops with early exits decide the nesting relation on levels. |
| Nesting.NodeIsDifference | rmol/bom/PolicyHelper.cpp:23-50 | A node and the smaller open set together are the larger open set, as multisets. |
| Nesting.LastNodeIsComplement | rmol/bom/PolicyHelper.cpp:163-217 | The last node and the open set together are all classes. |
| Nesting.NodeInOrder | rmol/bom/PolicyHelper.cpp:23-50 | A node lists its classes family by family, and from low to high in each. |
| Nesting.LastNodeInOrder | rmol/bom/PolicyHelper.cpp:163-217 | The last node lists its classes from the last family back, and from low to high in each. |
| Nesting.NodesPartition | rmol/command/MarginalRevenueTransformation.cpp:183-275 | Along any tower of included policies the nodes and the last node partition all classes. |
| Nesting.NestedMeans | rmol/bom/PolicyHelper.cpp:246-281 | Exact meaning of the test: the first policy is empty, or the second is no shorter and the first is strictly above it in every family before the first equal one. |
| Nesting.IncludedIsNestedWithoutFallBack | rmol/bom/PolicyHelper.cpp:258-260 | Inclusion of open sets is the test together with no fall-back after an equal family: the early exit costs exactly that. |
| Nesting.NestedIsNotAnOrder | rmol/bom/PolicyHelper.cpp:258-260 | The test accepts a pair whose open sets are not included, and it is not transitive. |
| Nesting.OneFamilyNested | rmol/bom/PolicyHelper.cpp:220-282 | With one family the test is inclusion. |
| HullConservation.NestedStepPasses | rmol/bom/PolicyHelper.cpp:148-158 | A pair that passed the test meets the assertion of the class-by-class comparison if and only if its open sets are included. |
| Utilities.ComputeSellUpFactorCurves | rmol/bom/Utilities.cpp:115-172 | The map holds for every class and data collection point the factor of the sell-up formula, 1.0 for the lowest class. |
| Utilities.ComputeDispatchingFactorCurves | rmol/bom/Utilities.cpp:176-249 | The running base factor gives every class the difference of consecutive sell-up factors, the highest class its own. |
| DemandCurves.DispatchingTelescopes | rmol/bom/Utilities.cpp:211-232 | The dispatching factors of a class and all higher ones add up to its sell-up factor. |
| DemandCurves.DispatchingSumsToOne | rmol/bom/Utilities.cpp:183-247 | The dispatching factors of a family add up to 1. |
| DemandCurves.DispatchingIsShare | rmol/bom/Utilities.cpp:223-232 | Ordered yields and FRAT5 above 1 make every dispatching and sell-up factor a share, and a dispatching factor is zero exactly for a class with the yield of the next higher one. |
| DemandCurves.HalfSellUpAtFrat5 | rmol/bom/Utilities.cpp:147-161 | FRAT5 is the multiple of the lowest yield at which half of the passengers sell up. |
| DemandCurves.SellUpSteps | rmol/bom/Utilities.cpp:147-161 | Selling up over two steps in yield has the product of their probabilities. |
| DemandCurves.FamilySellUpHalves | rmol/bom/Utilities.cpp:147-161 | So the sell-up factor of a class is one half for every span from the lowest yield to FRAT5 times it, that its own yield is above the lowest. |
| Utilities.DispatchDemandForecast | rmol/bom/Utilities.cpp:252-282 | Every class of the map gains its share of mean and variance in the price-oriented forecast, no other field changes. |
| Utilities.DispatchDemandForecastForFA | rmol/bom/Utilities.cpp:285-316 | The same for the cumulative forecast. |
| NewQFF.DispatchKeepsAgreement | rmol/command/NewQFF.cpp:136-154 | A data collection point keeps family and class forecasts in agreement. |
| NewQFF.ForecastFamily | rmol/command/NewQFF.cpp:64-158 | After every point the family is the sum of its classes and each cumulative forecast the sum over the class and all higher ones; the family gains the estimates of exactly the used intervals, and every class its share of each. |
| ForecastMeaning.CumulativeIsSoldUp | rmol/command/NewQFF.cpp:64-158 | After the forecast the cumulative mean and variance of a class are, over the intervals that end before the current day, the estimate times the sell-up factor of the class at the FRAT5 value of the first day of the interval. |
| ForecastMeaning.PolicyDemandIsSoldUp | rmol/command/NewQFF.cpp:262-298 | So the demand of a policy is what would sell up, in every family that it opens, to its class there or higher. |
| ForecastMeaning.ForecastWorkedOut | rmol/command/NewQFF.cpp:64-158 | One family in numbers: an unused interval, and one that gives 25, 25 and 50 of 100. |
| NewQFF.Forecast | rmol/command/NewQFF.cpp:30-61 | The agreement and the same gains for every family of the cabin and its classes, and every policy set from its classes. |
| NewQFF.DispatchDemandForecastToPolicy | rmol/command/NewQFF.cpp:262-298 | A policy gets the cumulative means and variances of its classes, zero when it names none. |
| PolicyDemand.PolicyDemandIsOpenDemand | rmol/command/NewQFF.cpp:262-298 | After the forecast a policy's demand and variance are the price-oriented sums over all classes that it opens. |
| PolicyDemand.DemandGrowsByNode | rmol/command/MarginalRevenueTransformation.cpp:213-221 | Between included policies demand and variance grow by those of exactly the classes of the node between them. |
| PolicyDemand.NodeCarriesItsClasses | rmol/command/MarginalRevenueTransformation.cpp:213-221 | The adjusted mean and variance of a hull node are the forecasts of its own classes. |
| PolicyDemand.AssertionsHoldWhenNodeHasDemand | rmol/command/MarginalRevenueTransformation.cpp:213-219 | With non-negative forecasts demand, or deviation, rises if and only if some class of the node has demand, or variance. |
| Forecaster.SetDemandForecastsToZero | rmol/command/Forecaster.cpp:167-195 | All families and classes have zero forecasts afterwards. |
| Forecaster.ZeroFamilyAgrees | rmol/command/Forecaster.cpp:176-192 | Zeroed forecasts agree, so the first data collection point starts from the invariant. |
| Optimiser.BuildVirtualClassListForLegBasedOptimisation | rmol/command/Optimiser.cpp:163-243 | The list has one virtual class for every level that occurs, from high to low, each with its classes, total mean and total variance; it reports true exactly when some class is kept. |
| Optimiser.AddClass | rmol/command/Optimiser.cpp:182-229 | The map step: skipped, a new virtual class, or one grown in place, and the other virtual classes stay as they were. |
| VirtualClasses.KeptInOneGroup | rmol/command/Optimiser.cpp:192-227 | Every class with demand and a positive rounded yield is in exactly one virtual class. |
| VirtualClasses.GroupInListOrder | rmol/command/Optimiser.cpp:192-227 | A virtual class lists exactly the kept classes of its level, in the order of the class list. |
| VirtualClasses.LevelsCoverKept | rmol/command/Optimiser.cpp:196-199 | The levels are positive and cover every kept class. |
| VirtualClasses.GroupsConserve | rmol/command/Optimiser.cpp:192-227 | The virtual classes conserve every total over the kept classes: mean, variance and revenue at the rounded yield. |
| VirtualClasses.GroupRevenue | rmol/command/Optimiser.cpp:192-227 | The revenue of a virtual class is its level for every unit of its mean. |
| LegOptimisation.Optimise | rmol/command/Optimiser.cpp:123-160 | Nothing is optimised without a virtual class; otherwise the chosen method runs, its assertions discharged by the virtual class list. |
| LegOptimisation.VirtualClassesPass | rmol/bom/MCOptimiser.cpp:82-94 | A virtual class list meets the assertions of the integration if and only if its yield levels do, as the loop computes them for the number of draws. |
| LegOptimisation.WideLevelsPass | rmol/bom/MCOptimiser.cpp:82-94 | Levels at least `top level / draws` apart pass, so all levels up to the number of draws do (`LowLevelsPass`). |
| LegOptimisation.TwoLevelsPass | rmol/bom/MCOptimiser.cpp:82-94 | For two levels that condition is exact. |
| LegOptimisation.CloseLevelsFail | rmol/bom/MCOptimiser.cpp:82-94 | Levels 10000 and 9999 pass, 10001 and 10000 fail. |
| LegOptimisation.VirtualClassesSuitEmsrB | rmol/bom/EmsrUtils.cpp:57-65 | A virtual class list meets the assertion of EMSR-b, and every ratio given to the quantile is inside (0, 1). |
| LegOptimisation.VirtualClassesVary | rmol/bom/EmsrUtils.cpp:57-65 | When every kept class has variance, so has every virtual class and every aggregate that the quantile is asked for. |
| FlightRun.AdjustedRowsVary | rmol/command/MarginalRevenueTransformation.cpp:216-221 | After the adjustment every kept class has variance. |

## Left out

- FlightRun.PrepareAndOptimise: one segment-cabin on one leg-cabin, after the forecast; the browsing of flight-dates, legs and segments and the service around it are wiring.
- FlightRun.ForecastAndOptimise: the fare-family forecast only, with the exclusions of `NewQFF.ForecastFamily` below and no family without classes; the total revenues of the policies are given, as everywhere here.
- MCOptimiser.OptimalOptimisationByMCIntegration: a protection outside the range of `int` is undefined in C++ and taken as past every capacity; how StdAir sums the samples of the classes of a virtual class is not part of this model, each virtual class has its samples.
- MCOptimiser.OptimisationByMCIntegration: the yield-level demand map is a list from the highest yield to the lowest, the previous bid price is taken as the current one before the run, and a capacity below one seat is excluded because the code then reads the back of an empty vector.
- MCOptimiser.GenerateDemandVector: the random generator is a function of mean, deviation and position; it restarts from the same seed for every vector.
- Emsr.HeuristicOptimisationByEmsr: what the end of the list refers to is undefined in C++; it is any object that is not in the list. The assertion on the number of values is discharged by asking for a class when there is capacity.
- Emsr.HeuristicOptimisationByEmsrB: the quantile is a function of mean, variance and ratio; its failure on a deviation of zero is not modelled, and does not occur in a run after the adjustment (`VirtualClassesVary`).
- MarginalRevenueTransformation.AdjustYieldAndDemand: the nodes are a fresh list; reuse of StdAir's nodes, stepping the node iterator past the end of the list, and the lookup of the last node by its key are not modelled.
- MarginalRevenueTransformation.BuildConvexHull: it shares one search, `BuildHull`, with the nested hull, which in the code repeats the same loops with one more condition.
- PolicyHelper.DiffBetweenTwoPolicies: asks that no family of the second policy is below the first one's, which the code asserts; the family of a class is found by membership, since StdAir keeps parent pointers.
- PolicyHelper.ComputeLastNode: the value of StdAir's default yield constant is taken as zero.
- Optimiser.BuildVirtualClassListForLegBasedOptimisation: a level is an unbounded integer, without the width of the cast.
- NewQFF.ForecastFamily: bookings, conversion, unconstraining and distribution fit of an interval are one estimate of mean and variance; a FRAT5 of 1 and a lowest yield of zero, by which the code divides, and yields that rise from a class to the next lower one or a FRAT5 below 1, of whose negative factors it takes square roots, are excluded.
- NewQFF.DispatchDemandForecastToPolicy: `addYieldDemand` and a policy's total revenue belong to StdAir; the total revenue is a given number of each policy.
- Utilities.DispatchDemandForecast: asks for non-negative factors, since the code takes their square root; the order of the map does not matter.
- Floating-point rounding: the code states no error bound, so arithmetic is over reals.
- `DPOptimiser`: its body is commented out. EMSR-a: a sum of unrelated quantiles.
- `EMDetruncator`, snapshots, `QForecasting` (which passes the dispatching map where `NewQFF` passes the sell-up map), `HybridForecasting`, `BasedForecasting`, `OldQFF`, `FareAdjustment` and the partnership (O&D) techniques: repeats, numeric convergence or plain sums.
