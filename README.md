# Verified model of the SmartLoad load optimizer

SmartLoad plans one truck load. Given a truck with a weight and a volume
limit, and up to 22 shipping orders, it picks the subset of orders that pays
the most. The subset must fit both limits, every order in it must travel the
same origin/destination route (compared ignoring case), and hazardous cargo is
never mixed with regular cargo. The service (`LoadOptimizerServiceImpl`) does
four things:

1. It drops orders whose pickup date is after their delivery date, and orders
   that alone exceed a truck limit.
2. It sorts the remaining orders by payout density.
3. It searches every forward-scanning subset by backtracking. A suffix-sum
   bound prunes branches that cannot beat the best load found so far.
4. It reports the chosen orders' ids, payout, weight, volume and utilisation.

This project models that core in Dafny and proves the following:

- **Soundness.** The reported load is feasible and drawn from the filtered
  orders.
- **Optimality.** No feasible load drawn from the filtered orders pays more.
  This holds for any arrangement of the candidates, so the density order
  only affects speed.

Files, one module each:

- `model.dfy` (`Model`): orders, the truck, sums over a selection, case-insensitive route equality, and the feasibility rules.
- `filter.dfy` (`Filter`): the validity filter.
- `compatibility.dfy` (`Compatibility`): the incremental compatibility check.
- `density.dfy` (`Density`): the density sort.
- `search.dfy` (`Search`): the suffix payouts, the `Result` accumulator, the mutable working selection, the backtracking search and its optimality proof.
- `assembly.dfy` (`Assembly`): the response builder.
- `optimizer.dfy` (`Optimizer`): the `optimize` operation.
- `scenarios.dfy` (`Scenarios`): the service's test scenarios. Each one calls
  `Optimize` on the scenario's request, and its contract is what the
  scenario expects of the response.

The imperative parts of the source stay imperative:

- The filter loop, the suffix-sum loop over an array, the recursive
  backtracking loop and the response loop are methods with loop invariants.
- The best-so-far holder is a class, `Result`, with the two fields
  `bestPayout` and `bestCombination`.
- The working list that the search grows and shrinks is a class, `Selection`,
  with `Add` and `RemoveLast`.
- `Backtrack` promises four things on return:
  - the working selection is exactly as it was;
  - the best payout never decreased;
  - the best is still a feasible load from the orders, and its payout is
    recorded exactly;
  - no extension of the current selection from the current index pays more
    than the best.

Dates are day ordinals (`nat`). Weights, volumes and payouts are unbounded
naturals.

Three details of the code that the model keeps:

- The hazmat rule is checked against every member of the selection
  (`anyMatch`, `LoadOptimizerServiceImpl.java:142-143`); the route is checked
  against the first member only. `CompatibleIffHomogeneous` proves that on a
  homogeneous selection this accepts exactly the orders that keep every pair
  of members on one route with one hazmat flag.
- The filter keeps the input order.
- Order ids are reported as a list in selection order.

## Model

| member | source | states |
|---|---|---|
| `Model.TotalAppend` | src/main/java/com/teleport/smartload/service/LoadOptimizerServiceImpl.java:161-166 | the payout, weight and volume totals of a concatenation are the sums of the parts' totals |
| `Model.TotalPermutation` | src/main/java/com/teleport/smartload/service/LoadOptimizerServiceImpl.java:40-41 | reordering a selection (as the density sort does) leaves each total unchanged |
| `Model.FeasiblePermutation` | src/main/java/com/teleport/smartload/service/LoadOptimizerServiceImpl.java:40-41 | whether a selection fits and is homogeneous does not depend on the order of its members |
| `Model.TotalSnoc` | src/main/java/com/teleport/smartload/service/LoadOptimizerServiceImpl.java:161-166 | one step of the accumulation: adding an order to a selection raises each total by exactly that order's amount |
| `Model.TotalBoundsMembers` | src/main/java/com/teleport/smartload/service/LoadOptimizerServiceImpl.java:161-166 | a selection's total is at least each member's amount, and is 0 exactly when every member's amount is 0 |
| `Model.LowerCaseFolds` | src/main/java/com/teleport/smartload/service/LoadOptimizerServiceImpl.java:136-137 | lower-casing leaves no ASCII capital, changes nothing but ASCII capitals, and is idempotent |
| `Model.EqualsIgnoreCaseCharwise` | src/main/java/com/teleport/smartload/service/LoadOptimizerServiceImpl.java:136-137 | two strings are equal ignoring case exactly when they have the same length and agree character by character up to case |
| `Filter.ValidIffAloneFits` | src/main/java/com/teleport/smartload/service/LoadOptimizerServiceImpl.java:63-70 | an order passes the filter exactly when its pickup is not after its delivery and, on its own, it is within the truck's weight and volume limits |
| `Filter.FilterValidSubsequence` | src/main/java/com/teleport/smartload/service/LoadOptimizerServiceImpl.java:59-74 | the filtered list draws its orders from the input without reuse, is never longer than it, and holds only valid orders |
| `Density.Insert` | src/main/java/com/teleport/smartload/service/LoadOptimizerServiceImpl.java:40-41 | inserting an order into a list gives that list with the order added |
| `Density.InsertPlacement` | src/main/java/com/teleport/smartload/service/LoadOptimizerServiceImpl.java:40-41 | insertion puts the order at its insertion point and leaves the elements ahead of it in place |
| `Density.InsertShiftsRest` | src/main/java/com/teleport/smartload/service/LoadOptimizerServiceImpl.java:40-41 | insertion is stable: the elements after the insertion point keep their relative order, each one place further on |
| `Density.InsertionPointSeparates` | src/main/java/com/teleport/smartload/service/LoadOptimizerServiceImpl.java:40-41 | the order is less dense than every element ahead of its insertion point and at least as dense as the element at it |
| `Filter.FilterValidOrders` | src/main/java/com/teleport/smartload/service/LoadOptimizerServiceImpl.java:59-74 | the loop's result is the filtered list, and an order is in it exactly when it is an input order with pickup not after delivery and weight and volume within the truck's limits |
| `Filter.FilterValidAppend` | src/main/java/com/teleport/smartload/service/LoadOptimizerServiceImpl.java:59-74 | filtering a concatenation is filtering each part, so kept orders stay in input order |
| `Filter.FilterValidCount` | src/main/java/com/teleport/smartload/service/LoadOptimizerServiceImpl.java:59-74 | every occurrence of a valid order is kept and no invalid one is |
| `Filter.FilterValidMembers` | src/main/java/com/teleport/smartload/service/LoadOptimizerServiceImpl.java:59-74 | an order is in the filtered list if and only if it is in the input and valid for the truck |
| `Compatibility.AnyWithHazmat` | src/main/java/com/teleport/smartload/service/LoadOptimizerServiceImpl.java:142-143 | true exactly when some member of the selection carries the given hazmat flag |
| `Compatibility.IsCompatible` | src/main/java/com/teleport/smartload/service/LoadOptimizerServiceImpl.java:128-153 | accepts anything into an empty selection; otherwise accepts exactly when the route equals the first member's ignoring case and every member has the candidate's hazmat flag |
| `Compatibility.CompatibleIffHomogeneous` | src/main/java/com/teleport/smartload/service/LoadOptimizerServiceImpl.java:128-153 | on a homogeneous selection the check accepts an order if and only if adding it keeps every pair of members on one route with one hazmat flag |
| `Density.SortByDensity` | src/main/java/com/teleport/smartload/service/LoadOptimizerServiceImpl.java:40-41 | the sorted list is a permutation of the valid orders |
| `Density.SortByDensitySorted` | src/main/java/com/teleport/smartload/service/LoadOptimizerServiceImpl.java:40-41 | with positive weights and volumes, the sorted list is in descending payout density |
| `Density.DenserTransitive` | src/main/java/com/teleport/smartload/service/LoadOptimizerServiceImpl.java:40-41 | the density comparison is transitive, so the sort order is consistent |
| `Search.SuffixPayouts` | src/main/java/com/teleport/smartload/service/LoadOptimizerServiceImpl.java:44-47 | the last entry is 0, each entry is that order's payout plus the next entry, and entry i is the payout total of the orders from i to the end |
| `Search.SuffixBound` | src/main/java/com/teleport/smartload/service/LoadOptimizerServiceImpl.java:44-47 | the suffix total from i bounds the payout of any choice of orders at positions i and later |
| `Search.CoveredByPrune` | src/main/java/com/teleport/smartload/service/LoadOptimizerServiceImpl.java:94-97 | when current payout plus the suffix bound does not beat the best, no extension of the current selection beats it, so the prune loses nothing |
| `Search.PrefixPassesChecks` | src/main/java/com/teleport/smartload/service/LoadOptimizerServiceImpl.java:102-113 | every order of a feasible load passes the capacity test and the compatibility check when the search reaches it |
| `Search.CoveredSkip` | src/main/java/com/teleport/smartload/service/LoadOptimizerServiceImpl.java:105-113 | skipping an order that exceeds a limit or is incompatible discards no feasible extension |
| `Search.TakeStep` | src/main/java/com/teleport/smartload/service/LoadOptimizerServiceImpl.java:99-115 | adding an order that passed both tests keeps the selection feasible, at strictly increasing positions, with each total raised by the order's amount |
| `Search.CoveredTake` | src/main/java/com/teleport/smartload/service/LoadOptimizerServiceImpl.java:115-119 | the recursive call covers every extension that starts with the added order |
| `Search.Result.constructor` | src/main/java/com/teleport/smartload/service/LoadOptimizerServiceImpl.java:19-22 | the accumulator starts with best payout 0 and an empty best combination |
| `Search.Selection.Add` | src/main/java/com/teleport/smartload/service/LoadOptimizerServiceImpl.java:115 | the working list gains the order at its end |
| `Search.Selection.RemoveLast` | src/main/java/com/teleport/smartload/service/LoadOptimizerServiceImpl.java:119 | the working list loses its last element |
| `Search.Backtrack` | src/main/java/com/teleport/smartload/service/LoadOptimizerServiceImpl.java:79-121 | returns with the working list unchanged and the best payout not decreased; the best stays a feasible load whose payout is recorded exactly; no extension of the current selection from the index on beats the best |
| `Search.SearchOptimal` | src/main/java/com/teleport/smartload/service/LoadOptimizerServiceImpl.java:49-52 | a complete search from index 0 bounds the payout of every feasible load drawn from any arrangement of the candidates |
| `Search.PickSubMultiset` | src/main/java/com/teleport/smartload/service/LoadOptimizerServiceImpl.java:99-120 | a selection at strictly increasing positions draws its orders from the list without reuse |
| `Search.PositionsOf` | src/main/java/com/teleport/smartload/service/LoadOptimizerServiceImpl.java:99-120 | every sub-multiset of the candidates is picked by some strictly increasing list of positions, so the scan reaches every subset |
| `Assembly.UtilizationHundredths` | src/main/java/com/teleport/smartload/service/LoadOptimizerServiceImpl.java:168-176 | utilisation is 100 × total / capacity rounded half-up to two decimals, and 0 when the capacity is 0 |
| `Assembly.UtilizationAtMostFull` | src/main/java/com/teleport/smartload/service/LoadOptimizerServiceImpl.java:168-176 | a total within the capacity never shows more than 100.00% |
| `Assembly.BuildResponse` | src/main/java/com/teleport/smartload/service/LoadOptimizerServiceImpl.java:155-186 | truck id passed through; ids of the selection in order; payout, weight and volume are the sums over the selection; utilisations as above |
| `Assembly.EmptySelectionPlan` | src/main/java/com/teleport/smartload/service/LoadOptimizerServiceImpl.java:155-186 | an empty selection is reported with no ids and every total and utilisation zero |
| `Optimizer.Candidates` | src/main/java/com/teleport/smartload/service/LoadOptimizerServiceImpl.java:29-37 | an order is a candidate exactly when the request carries it and it is valid for the truck; a missing list has none |
| `Optimizer.CandidateLoadsAreValid` | src/main/java/com/teleport/smartload/service/LoadOptimizerServiceImpl.java:61-71 | every order of a load drawn from the candidates came from the request, has pickup no later than delivery and fits the truck on its own |
| `Optimizer.NoCandidatesOnlyEmptyLoad` | src/main/java/com/teleport/smartload/service/LoadOptimizerServiceImpl.java:29-37 | with no candidates the only load is the empty one |
| `Optimizer.OptimumTakesAllWhenAllFit` | src/main/java/com/teleport/smartload/service/LoadOptimizerServiceImpl.java:49-52 | when all candidates fit together and every payout is positive, an optimal load is a permutation of the whole candidate list |
| `Optimizer.PlanPaysAtLeastEachCandidate` | src/main/java/com/teleport/smartload/service/LoadOptimizerServiceImpl.java:49-52 | an optimal plan pays at least each candidate's payout, so it lists some order whenever a candidate pays anything |
| `Optimizer.Optimize` | src/main/java/com/teleport/smartload/service/LoadOptimizerServiceImpl.java:25-53 | the plan describes a feasible load drawn from the candidates, no feasible load from them pays more, and a missing, empty or fully filtered order list gives an empty plan with zero totals |
| `Model.TotalSubMultiset` | src/main/java/com/teleport/smartload/service/LoadOptimizerServiceImpl.java:161-166 | a selection drawn from another sums to no more, and to strictly less when it leaves an order with a positive amount out |
| `Scenarios.SelectsSingleOrder` | src/test/java/com/teleport/smartload/service/LoadOptimizerServiceTest.java:41-52 | one order that fits: the plan names the truck and lists exactly that order, paying 100000 |
| `Scenarios.SelectsMultipleOrders` | src/test/java/com/teleport/smartload/service/LoadOptimizerServiceTest.java:54-67 | two orders that fit together: both ids are listed, and the payout is 180000 |
| `Scenarios.MaximizesPayout` | src/test/java/com/teleport/smartload/service/LoadOptimizerServiceTest.java:69-84 | one order paying 200000 against two paying 50000 each: only the high-value order is listed |
| `Scenarios.HandlesNullOrders` | src/test/java/com/teleport/smartload/service/LoadOptimizerServiceTest.java:91-100 | no order list: no ids and zero payout |
| `Scenarios.HandlesEmptyOrders` | src/test/java/com/teleport/smartload/service/LoadOptimizerServiceTest.java:102-111 | an empty order list: no ids and zero payout |
| `Scenarios.HandlesAllOrdersTooLarge` | src/test/java/com/teleport/smartload/service/LoadOptimizerServiceTest.java:113-123 | every order exceeds a limit on its own: no ids |
| `Scenarios.RespectsWeightLimit` | src/test/java/com/teleport/smartload/service/LoadOptimizerServiceTest.java:130-143 | two orders too heavy together: the weight stays within 44000 and the payout is the better order's 100000 |
| `Scenarios.RespectsVolumeLimit` | src/test/java/com/teleport/smartload/service/LoadOptimizerServiceTest.java:145-157 | two orders too bulky together: the volume stays within 3000 and the payout is 100000 |
| `Scenarios.CalculatesUtilizationCorrectly` | src/test/java/com/teleport/smartload/service/LoadOptimizerServiceTest.java:159-171 | half the weight and half the volume are reported as 50.00% each |
| `Scenarios.NoMixingHazmatWithRegular` | src/test/java/com/teleport/smartload/service/LoadOptimizerServiceTest.java:178-191 | a hazmat and a regular order: only the better-paying hazmat order is listed, with payout 150000 |
| `Scenarios.AllowsMultipleHazmatTogether` | src/test/java/com/teleport/smartload/service/LoadOptimizerServiceTest.java:193-204 | two hazmat orders: both are listed, with payout 180000 |
| `Scenarios.AllowsMultipleRegularTogether` | src/test/java/com/teleport/smartload/service/LoadOptimizerServiceTest.java:206-217 | two regular orders: both are listed, with payout 180000 |
| `Scenarios.SameRoutesOnly` | src/test/java/com/teleport/smartload/service/LoadOptimizerServiceTest.java:224-236 | orders on different routes: only the better-paying one is listed |
| `Scenarios.CaseInsensitiveRoutes` | src/test/java/com/teleport/smartload/service/LoadOptimizerServiceTest.java:238-249 | routes differing only in letter case share a load: two ids and payout 180000 |
| `Scenarios.FilterInvalidDates` | src/test/java/com/teleport/smartload/service/LoadOptimizerServiceTest.java:256-268 | an order picked up after its delivery is never listed, even though it pays more |
| `Scenarios.Handles22Orders` | src/test/java/com/teleport/smartload/service/LoadOptimizerServiceTest.java:275-292 | twenty-two small orders built in a loop: the plan lists at least one order |
| `Scenarios.ReturnsAllOrderIds` | src/test/java/com/teleport/smartload/service/LoadOptimizerServiceTest.java:327-339 | three orders that fit together: exactly three ids, among them each order's |

## Left out

- Utilisation percentages are computed in `double` in the source. The model computes them exactly over the integers, rounding half-up, in hundredths of a percent. Floating-point rounding could differ from this in the last digit near a .5 boundary.
- Density sort: the source compares `double` densities with a stable sort. The model compares densities exactly by cross-multiplication in a stable insertion sort. Orders whose densities differ by less than the `double` rounding may be arranged differently. The optimal payout does not depend on the arrangement. Which of several equal-payout loads is returned does depend on it, so no contract fixes it.
- Java `int` overflow of weight and volume sums and `long` overflow of payout sums are not modelled: all quantities are unbounded naturals.
- Null dates: the source's filter keeps an order whose pickup or delivery date is null. Request validation (`@NotNull`) rules such orders out, so dates are non-null day ordinals in the model.
- Case-insensitive comparison lower-cases ASCII letters only. Java's `equalsIgnoreCase` also folds non-ASCII letters.
- Request validation (`@Valid`, `@Positive`, `@Size(max = 22)`), the HTTP controller, the exception handler and the DTO getters and setters are framework plumbing. The model does depend on some of the constraints they enforce. Payout, weight and volume are `nat`, which encodes `@PositiveOrZero` on the payout (`src/main/java/com/teleport/smartload/model/Order.java:15`) and the non-negativity of weight and volume. The suffix-sum prune and the capacity skip are sound only under it: two orders paying 15 and -20 give a first suffix total of -5, the root prunes, and the feasible load holding the first order alone is missed. The density order is proved sorted only for positive weights and volumes (`@Positive`).
- Timing behaviour is not functional behaviour and is not modelled. The two performance tests with 22 orders assert a time bound. The first also asserts a non-empty plan, which `Scenarios.Handles22Orders` states. The second asserts only that a response exists.
- The truck-id test (`returnsTruckId`) is covered by `Scenarios.SelectsSingleOrder`, which states the truck id for a different single order.
- Concurrency: each call allocates its own `Result` and working list, so the model has no shared state to reason about.
