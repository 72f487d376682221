/** The optimisation operation: filter the orders, arrange them by density,
    search exhaustively for the best load, and report it. */
module Optimizer {
  import opened Model
  import opened Filter
  import opened Density
  import opened Search
  import opened Assembly

  /** The orders a load may be drawn from: none when the request carries no
      order list or an empty one, otherwise the orders that survive the filter. */
  function Candidates(truck: Truck, orders: Option<seq<Order>>): (r: seq<Order>)
    ensures forall o :: o in r <==> orders.Some? && o in orders.value && IsValidFor(o, truck)
  {
    match orders
    case None => []
    case Some(s) =>
      assert forall o :: o in FilterValid(s, truck) <==> o in s && IsValidFor(o, truck) by {
        forall o ensures o in FilterValid(s, truck) <==> o in s && IsValidFor(o, truck) {
          FilterValidMembers(s, truck, o);
        }
      }
      FilterValid(s, truck)
  }

  /** Every order of a load drawn from the candidates was in the request, has
      its pickup no later than its delivery and fits the truck on its own. */
  lemma CandidateLoadsAreValid(truck: Truck, orders: Option<seq<Order>>, load: seq<Order>)
    requires IsLoadFrom(truck, Candidates(truck, orders), load)
    ensures forall o :: o in load ==>
              orders.Some? && o in orders.value && o.pickupDate <= o.deliveryDate && IsValidFor(o, truck)
  {
    forall o | o in load
      ensures orders.Some? && o in orders.value && o.pickupDate <= o.deliveryDate && IsValidFor(o, truck)
    {
      assert o in multiset(load);
      assert o in multiset(Candidates(truck, orders));
    }
  }

  /** The only load drawn from no candidates is the empty one. */
  lemma NoCandidatesOnlyEmptyLoad(truck: Truck, load: seq<Order>)
    requires IsLoadFrom(truck, [], load)
    ensures load == []
  {
    assert |multiset(load)| == 0;
  }

  /** When all the candidates fit together in one load and every payout is
      positive, an optimal load takes every one of them. */
  lemma OptimumTakesAllWhenAllFit(truck: Truck, pool: seq<Order>, best: seq<Order>)
    requires forall o :: o in pool ==> o.payoutCents > 0
    requires Feasible(truck, pool)
    requires IsLoadFrom(truck, pool, best)
    requires forall load :: IsLoadFrom(truck, pool, load) ==> Total(load, Payout) <= Total(best, Payout)
    ensures multiset(best) == multiset(pool)
  {
    assert IsLoadFrom(truck, pool, pool);
    assert forall o :: o in pool ==> Amount(o, Payout) > 0;
    TotalSubMultiset(best, pool, Payout);
  }

  /** An optimal plan pays at least as much as any single candidate, so it is
      never empty while some candidate pays anything. */
  lemma PlanPaysAtLeastEachCandidate(truck: Truck, orders: Option<seq<Order>>, o: Order,
                                     plan: LoadPlan, selected: seq<Order>)
    requires Describes(plan, truck, selected)
    requires forall load :: IsLoadFrom(truck, Candidates(truck, orders), load) ==>
               Total(load, Payout) <= plan.totalPayoutCents
    requires o in Candidates(truck, orders)
    ensures o.payoutCents <= plan.totalPayoutCents
    ensures o.payoutCents > 0 ==> plan.selectedOrderIds != []
  {
    assert Total([o], Payout) == o.payoutCents + Total([], Payout);
    assert Total([o], Weight) == o.weightLbs + Total([], Weight);
    assert Total([o], Volume) == o.volumeCuft + Total([], Volume);
    assert multiset([o]) <= multiset(Candidates(truck, orders)) by {
      assert o in multiset(Candidates(truck, orders));
    }
    assert IsLoadFrom(truck, Candidates(truck, orders), [o]);
    if o.payoutCents > 0 {
      assert selected != [];
    }
  }

  /** The operation. The plan reports a feasible load drawn from the
      candidates, and no feasible load drawn from them pays more. */
  method Optimize(truck: Truck, orders: Option<seq<Order>>) returns (plan: LoadPlan, ghost selected: seq<Order>)
    ensures Describes(plan, truck, selected)
    ensures IsLoadFrom(truck, Candidates(truck, orders), selected)
    ensures forall load :: IsLoadFrom(truck, Candidates(truck, orders), load) ==>
              Total(load, Payout) <= plan.totalPayoutCents
    ensures Candidates(truck, orders) == [] ==>
              && plan.selectedOrderIds == []
              && plan.totalPayoutCents == 0 && plan.totalWeightLbs == 0 && plan.totalVolumeCuft == 0
  {
    if orders.None? || orders.value == [] {
      plan := BuildResponse(truck, []);
      selected := [];
      forall load | IsLoadFrom(truck, Candidates(truck, orders), load) ensures Total(load, Payout) <= plan.totalPayoutCents {
        NoCandidatesOnlyEmptyLoad(truck, load);
      }
      return;
    }

    var validOrders := FilterValidOrders(orders.value, truck);
    if validOrders == [] {
      plan := BuildResponse(truck, []);
      selected := [];
      forall load | IsLoadFrom(truck, Candidates(truck, orders), load) ensures Total(load, Payout) <= plan.totalPayoutCents {
        NoCandidatesOnlyEmptyLoad(truck, load);
      }
      return;
    }

    var arranged := SortByDensity(validOrders);
    var suffixPayouts := SuffixPayouts(arranged);

    var result := new Result();
    var current := new Selection();
    assert Pick(arranged, []) == [];
    Backtrack(arranged, truck, 0, current, 0, 0, 0, result, suffixPayouts, []);
    SearchOptimal(truck, validOrders, arranged, result.bestPayout);

    plan := BuildResponse(truck, result.bestCombination);
    selected := result.bestCombination;
  }
}
