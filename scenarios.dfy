/** The service's documented scenarios, stated about the plan `Optimize`
    returns: each method calls the operation on the scenario's request and
    its `ensures` is what the scenario expects of the response. */
module Scenarios {
  import opened Model
  import opened Filter
  import opened Assembly
  import opened Optimizer

  /** The truck of every scenario: 44000 lbs and 3000 cu ft. */
  const DefaultTruck := Truck("truck-1", 44000, 3000)

  /** An order picked up on day 0 and delivered on day 3. */
  function Shipment(id: string, payout: nat, weight: nat, volume: nat,
                    origin: string, destination: string, isHazmat: bool): Order {
    Order(id, payout, weight, volume, origin, destination, 0, 3, isHazmat)
  }

  /** The decimal digits of `n`. */
  function DecimalString(n: nat): string
    decreases n
  {
    var digit := ['0' + (n % 10) as char];
    if n < 10 then digit else DecimalString(n / 10) + digit
  }

  // ----- facts about small concrete selections -----

  lemma TotalPair(a: Order, b: Order, d: Dimension)
    ensures Total([a, b], d) == Amount(a, d) + Amount(b, d)
  {
    assert [a, b][1..] == [b];
    assert Total([b], d) == Amount(b, d) + Total([], d);
  }

  lemma TotalTriple(a: Order, b: Order, c: Order, d: Dimension)
    ensures Total([a, b, c], d) == Amount(a, d) + Amount(b, d) + Amount(c, d)
  {
    assert [a, b, c][1..] == [b, c];
    TotalPair(b, c, d);
  }

  /** Filtering a list whose orders are all valid keeps it whole. */
  lemma {:induction false} FilterKeepsValid(s: seq<Order>, truck: Truck)
    requires forall o :: o in s ==> IsValidFor(o, truck)
    ensures FilterValid(s, truck) == s
  {
    if s != [] {
      assert forall o :: o in s[1..] ==> o in s;
      FilterKeepsValid(s[1..], truck);
    }
  }

  /** A selection is homogeneous when each member has the route of `r`,
      ignoring case, and `r`'s hazmat flag. */
  lemma HomogeneousLike(s: seq<Order>, r: Order)
    requires forall x :: x in s ==>
               && LowerCase(x.origin) == LowerCase(r.origin)
               && LowerCase(x.destination) == LowerCase(r.destination)
               && x.isHazmat == r.isHazmat
    ensures Homogeneous(s)
  {
  }

  /** A load drawn from a single order is empty or that order. */
  lemma SingleOrderLoads(o: Order, load: seq<Order>)
    requires multiset(load) <= multiset([o])
    ensures load == [] || load == [o]
  {
    if load != [] {
      assert load[0] in multiset(load);
      assert |load| == |multiset(load)|;
      assert |multiset(load)| <= |multiset([o])| by {
        assert multiset([o]) == multiset(load) + (multiset([o]) - multiset(load));
      }
    }
  }

  /** A plan that reports a permutation of `pool` lists exactly as many ids,
      among them the id of every order of `pool`, and pays the pool's total. */
  lemma PlanOfPermutation(plan: LoadPlan, truck: Truck, selected: seq<Order>, pool: seq<Order>)
    requires Describes(plan, truck, selected)
    requires multiset(selected) == multiset(pool)
    ensures |plan.selectedOrderIds| == |pool|
    ensures forall o :: o in pool ==> o.id in plan.selectedOrderIds
    ensures plan.totalPayoutCents == Total(pool, Payout)
  {
    assert |selected| == |multiset(selected)| == |multiset(pool)| == |pool|;
    TotalPermutation(selected, pool, Payout);
    forall o | o in pool ensures o.id in plan.selectedOrderIds {
      assert o in multiset(pool);
      assert o in selected;
      var k :| 0 <= k < |selected| && selected[k] == o;
      assert plan.selectedOrderIds[k] == o.id;
    }
  }

  /** When every candidate pays something and all of them fit together, an
      optimal plan lists every candidate's id and pays their total. */
  lemma PlanTakesWholePool(plan: LoadPlan, truck: Truck, selected: seq<Order>, pool: seq<Order>)
    requires forall o :: o in pool ==> o.payoutCents > 0
    requires Feasible(truck, pool)
    requires Describes(plan, truck, selected)
    requires IsLoadFrom(truck, pool, selected)
    requires forall load :: IsLoadFrom(truck, pool, load) ==> Total(load, Payout) <= plan.totalPayoutCents
    ensures |plan.selectedOrderIds| == |pool|
    ensures forall o :: o in pool ==> o.id in plan.selectedOrderIds
    ensures plan.totalPayoutCents == Total(pool, Payout)
  {
    OptimumTakesAllWhenAllFit(truck, pool, selected);
    PlanOfPermutation(plan, truck, selected, pool);
  }

  /** A plan reporting one order lists only its id. */
  lemma PlanOfSingle(plan: LoadPlan, truck: Truck, selected: seq<Order>, o: Order)
    requires Describes(plan, truck, selected)
    requires multiset(selected) == multiset([o])
    ensures plan.selectedOrderIds == [o.id]
    ensures plan.totalPayoutCents == o.payoutCents
    ensures plan.totalWeightLbs == o.weightLbs && plan.totalVolumeCuft == o.volumeCuft
  {
    SingleOrderLoads(o, selected);
    assert Total([o], Payout) == o.payoutCents + Total([], Payout);
    assert Total([o], Weight) == o.weightLbs + Total([], Weight);
    assert Total([o], Volume) == o.volumeCuft + Total([], Volume);
  }

  /** The orders `a` and/or `b` that `take` names. */
  function PairChoice(a: Order, b: Order, takeA: bool, takeB: bool): seq<Order> {
    (if takeA then [a] else []) + (if takeB then [b] else [])
  }

  /** A load drawn from two distinct orders is, up to order, the ones of
      them it contains. */
  lemma PairLoads(a: Order, b: Order, load: seq<Order>)
    requires a != b
    requires multiset(load) <= multiset([a, b])
    ensures multiset(load) == multiset(PairChoice(a, b, a in load, b in load))
  {
    var chosen := PairChoice(a, b, a in load, b in load);
    forall x ensures multiset(load)[x] == multiset(chosen)[x] {
      assert x in load <==> x in multiset(load);
    }
  }

  /** Two orders that cannot share a load: a load drawn from them holds at
      most one, and when `a` pays more, a load paying `a`'s payout is `a` alone. */
  lemma ExclusivePair(truck: Truck, a: Order, b: Order, load: seq<Order>)
    requires a != b
    requires !Feasible(truck, [a, b])
    requires IsLoadFrom(truck, [a, b], load)
    ensures Total(load, Payout) <= if a.payoutCents < b.payoutCents then b.payoutCents else a.payoutCents
    ensures a.payoutCents > b.payoutCents && Total(load, Payout) == a.payoutCents ==> multiset(load) == multiset([a])
  {
    var chosen := PairChoice(a, b, a in load, b in load);
    PairLoads(a, b, load);
    FeasiblePermutation(truck, load, chosen);
    TotalPermutation(load, chosen, Payout);
    assert !(a in load && b in load);
    assert Total([a], Payout) == a.payoutCents + Total([], Payout);
    assert Total([b], Payout) == b.payoutCents + Total([], Payout);
  }

  /** Two distinct orders that are both in a load that fits weigh no more
      than the truck's limit together. */
  lemma PairWeightWithinLimit(truck: Truck, x: Order, y: Order, load: seq<Order>)
    requires x != y
    requires Fits(truck, load)
    ensures x in load && y in load ==> x.weightLbs + y.weightLbs <= truck.maxWeightLbs
  {
    if x in load && y in load {
      assert multiset([x, y]) <= multiset(load) by {
        assert x in multiset(load) && y in multiset(load);
      }
      TotalSubMultiset([x, y], load, Weight);
      TotalPair(x, y, Weight);
    }
  }

  /** One order paying more than two others together, but too heavy to share
      the truck with either: the best load drawn from the three is that order
      alone. */
  lemma HeavyOrderAlone(truck: Truck, high: Order, low1: Order, low2: Order, load: seq<Order>)
    requires high != low1 && high != low2
    requires high.weightLbs + low1.weightLbs > truck.maxWeightLbs
    requires high.weightLbs + low2.weightLbs > truck.maxWeightLbs
    requires low1.payoutCents + low2.payoutCents < high.payoutCents
    requires IsLoadFrom(truck, [high, low1, low2], load)
    ensures Total(load, Payout) <= high.payoutCents
    ensures Total(load, Payout) == high.payoutCents ==> multiset(load) == multiset([high])
  {
    PairWeightWithinLimit(truck, high, low1, load);
    PairWeightWithinLimit(truck, high, low2, load);
    if high in load {
      assert multiset(load) <= multiset([high]) by {
        forall x ensures multiset(load)[x] <= multiset([high])[x] {
          assert x in load <==> x in multiset(load);
        }
      }
      SingleOrderLoads(high, load);
      assert Total([high], Payout) == high.payoutCents + Total([], Payout);
    } else {
      assert multiset(load) <= multiset([low1, low2]) by {
        forall x ensures multiset(load)[x] <= multiset([low1, low2])[x] {
          assert x in load <==> x in multiset(load);
        }
      }
      TotalSubMultiset(load, [low1, low2], Payout);
      TotalPair(low1, low2, Payout);
    }
  }

  // ----- the scenarios -----

  /** A single order that fits is selected. */
  method SelectsSingleOrder() returns (plan: LoadPlan)
    ensures plan.truckId == "truck-1"
    ensures plan.selectedOrderIds == ["ord-1"]
    ensures plan.totalPayoutCents == 100000
  {
    var order := Shipment("ord-1", 100000, 20000, 1500, "LA", "Dallas", false);
    var pool := [order];
    FilterKeepsValid(pool, DefaultTruck);
    assert Feasible(DefaultTruck, pool) by {
      assert Total(pool, Weight) == 20000 + Total([], Weight);
      assert Total(pool, Volume) == 1500 + Total([], Volume);
    }
    ghost var selected;
    plan, selected := Optimize(DefaultTruck, Some(pool));
    OptimumTakesAllWhenAllFit(DefaultTruck, pool, selected);
    PlanOfSingle(plan, DefaultTruck, selected, order);
  }

  /** Two orders that fit together are both selected. */
  method SelectsMultipleOrders() returns (plan: LoadPlan)
    ensures |plan.selectedOrderIds| == 2
    ensures "ord-1" in plan.selectedOrderIds && "ord-2" in plan.selectedOrderIds
    ensures plan.totalPayoutCents == 180000
  {
    var order1 := Shipment("ord-1", 100000, 15000, 1000, "LA", "Dallas", false);
    var order2 := Shipment("ord-2", 80000, 12000, 800, "LA", "Dallas", false);
    var pool := [order1, order2];
    assert Candidates(DefaultTruck, Some(pool)) == pool by {
      FilterKeepsValid(pool, DefaultTruck);
    }
    assert Feasible(DefaultTruck, pool) by {
      HomogeneousLike(pool, order1);
      TotalPair(order1, order2, Weight);
      TotalPair(order1, order2, Volume);
    }
    TotalPair(order1, order2, Payout);
    ghost var selected;
    plan, selected := Optimize(DefaultTruck, Some(pool));
    PlanTakesWholePool(plan, DefaultTruck, selected, pool);
    assert order1 in pool && order2 in pool;
  }

  /** Hazardous and regular cargo are never combined: the better-paying
      hazmat order is selected alone. */
  method NoMixingHazmatWithRegular() returns (plan: LoadPlan)
    ensures plan.selectedOrderIds == ["hazmat"]
    ensures plan.totalPayoutCents == 150000
  {
    var hazmat := Shipment("hazmat", 150000, 15000, 1000, "LA", "Dallas", true);
    var regular := Shipment("regular", 100000, 15000, 1000, "LA", "Dallas", false);
    var pool := [hazmat, regular];
    FilterKeepsValid(pool, DefaultTruck);
    assert !Homogeneous(pool) by {
      assert hazmat in pool && regular in pool;
    }
    assert IsLoadFrom(DefaultTruck, pool, [hazmat]) by {
      assert Total([hazmat], Weight) == 15000 + Total([], Weight);
      assert Total([hazmat], Volume) == 1000 + Total([], Volume);
    }
    assert Total([hazmat], Payout) == 150000 + Total([], Payout);
    ghost var selected;
    plan, selected := Optimize(DefaultTruck, Some(pool));
    ExclusivePair(DefaultTruck, hazmat, regular, selected);
    PlanOfSingle(plan, DefaultTruck, selected, hazmat);
  }

  /** A request without an order list gets an empty plan. */
  method HandlesNullOrders() returns (plan: LoadPlan)
    ensures plan.selectedOrderIds == [] && plan.totalPayoutCents == 0
  {
    ghost var selected;
    plan, selected := Optimize(DefaultTruck, None);
  }

  /** A request with an empty order list gets an empty plan. */
  method HandlesEmptyOrders() returns (plan: LoadPlan)
    ensures plan.selectedOrderIds == [] && plan.totalPayoutCents == 0
  {
    ghost var selected;
    plan, selected := Optimize(DefaultTruck, Some([]));
  }

  /** Orders each too heavy or too bulky for the truck leave the plan empty. */
  method HandlesAllOrdersTooLarge() returns (plan: LoadPlan)
    ensures plan.selectedOrderIds == []
  {
    var tooHeavy := Shipment("heavy", 100000, 50000, 1000, "LA", "Dallas", false);
    var tooBig := Shipment("big", 100000, 10000, 5000, "LA", "Dallas", false);
    assert FilterValid([tooHeavy, tooBig], DefaultTruck) == [] by {
      assert !IsValidFor(tooHeavy, DefaultTruck) && !IsValidFor(tooBig, DefaultTruck);
      assert [tooHeavy, tooBig][1..] == [tooBig];
      assert [tooBig][1..] == [];
      assert FilterValid([tooBig], DefaultTruck) == [] + FilterValid([], DefaultTruck);
    }
    ghost var selected;
    plan, selected := Optimize(DefaultTruck, Some([tooHeavy, tooBig]));
  }

  /** Of two orders too heavy together, the better-paying one is taken. */
  method RespectsWeightLimit() returns (plan: LoadPlan)
    ensures plan.totalWeightLbs <= 44000
    ensures plan.totalPayoutCents == 100000
  {
    var order1 := Shipment("ord-1", 100000, 30000, 1000, "LA", "Dallas", false);
    var order2 := Shipment("ord-2", 80000, 20000, 500, "LA", "Dallas", false);
    var pool := [order1, order2];
    FilterKeepsValid(pool, DefaultTruck);
    TotalPair(order1, order2, Weight);
    assert IsLoadFrom(DefaultTruck, pool, [order1]) by {
      assert Total([order1], Weight) == 30000 + Total([], Weight);
      assert Total([order1], Volume) == 1000 + Total([], Volume);
    }
    assert Total([order1], Payout) == 100000 + Total([], Payout);
    ghost var selected;
    plan, selected := Optimize(DefaultTruck, Some(pool));
    ExclusivePair(DefaultTruck, order1, order2, selected);
  }

  /** Of two orders too bulky together, the better-paying one is taken. */
  method RespectsVolumeLimit() returns (plan: LoadPlan)
    ensures plan.totalVolumeCuft <= 3000
    ensures plan.totalPayoutCents == 100000
  {
    var order1 := Shipment("ord-1", 100000, 10000, 2000, "LA", "Dallas", false);
    var order2 := Shipment("ord-2", 80000, 10000, 1500, "LA", "Dallas", false);
    var pool := [order1, order2];
    FilterKeepsValid(pool, DefaultTruck);
    TotalPair(order1, order2, Volume);
    assert IsLoadFrom(DefaultTruck, pool, [order1]) by {
      assert Total([order1], Weight) == 10000 + Total([], Weight);
      assert Total([order1], Volume) == 2000 + Total([], Volume);
    }
    assert Total([order1], Payout) == 100000 + Total([], Payout);
    ghost var selected;
    plan, selected := Optimize(DefaultTruck, Some(pool));
    ExclusivePair(DefaultTruck, order1, order2, selected);
  }

  /** Half the weight and half the volume show as 50.00% each. */
  method CalculatesUtilizationCorrectly() returns (plan: LoadPlan)
    ensures plan.utilizationWeightHundredths == 5000
    ensures plan.utilizationVolumeHundredths == 5000
  {
    var order := Shipment("ord-1", 100000, 22000, 1500, "LA", "Dallas", false);
    var pool := [order];
    FilterKeepsValid(pool, DefaultTruck);
    assert Feasible(DefaultTruck, pool) by {
      assert Total(pool, Weight) == 22000 + Total([], Weight);
      assert Total(pool, Volume) == 1500 + Total([], Volume);
    }
    ghost var selected;
    plan, selected := Optimize(DefaultTruck, Some(pool));
    OptimumTakesAllWhenAllFit(DefaultTruck, pool, selected);
    PlanOfSingle(plan, DefaultTruck, selected, order);
  }

  /** Hazmat orders may travel together. */
  method AllowsMultipleHazmatTogether() returns (plan: LoadPlan)
    ensures |plan.selectedOrderIds| == 2
    ensures plan.totalPayoutCents == 180000
  {
    var hazmat1 := Shipment("hazmat1", 100000, 10000, 500, "LA", "Dallas", true);
    var hazmat2 := Shipment("hazmat2", 80000, 10000, 500, "LA", "Dallas", true);
    var pool := [hazmat1, hazmat2];
    assert Candidates(DefaultTruck, Some(pool)) == pool by {
      FilterKeepsValid(pool, DefaultTruck);
    }
    assert Feasible(DefaultTruck, pool) by {
      HomogeneousLike(pool, hazmat1);
      TotalPair(hazmat1, hazmat2, Weight);
      TotalPair(hazmat1, hazmat2, Volume);
    }
    TotalPair(hazmat1, hazmat2, Payout);
    ghost var selected;
    plan, selected := Optimize(DefaultTruck, Some(pool));
    PlanTakesWholePool(plan, DefaultTruck, selected, pool);
  }

  /** Regular orders may travel together. */
  method AllowsMultipleRegularTogether() returns (plan: LoadPlan)
    ensures |plan.selectedOrderIds| == 2
    ensures plan.totalPayoutCents == 180000
  {
    var regular1 := Shipment("reg1", 100000, 10000, 500, "LA", "Dallas", false);
    var regular2 := Shipment("reg2", 80000, 10000, 500, "LA", "Dallas", false);
    var pool := [regular1, regular2];
    assert Candidates(DefaultTruck, Some(pool)) == pool by {
      FilterKeepsValid(pool, DefaultTruck);
    }
    assert Feasible(DefaultTruck, pool) by {
      HomogeneousLike(pool, regular1);
      TotalPair(regular1, regular2, Weight);
      TotalPair(regular1, regular2, Volume);
    }
    TotalPair(regular1, regular2, Payout);
    ghost var selected;
    plan, selected := Optimize(DefaultTruck, Some(pool));
    PlanTakesWholePool(plan, DefaultTruck, selected, pool);
  }

  /** Only orders with the same route share a load. */
  method SameRoutesOnly() returns (plan: LoadPlan)
    ensures plan.selectedOrderIds == ["la-dal"]
  {
    var laDallas := Shipment("la-dal", 100000, 15000, 1000, "LA", "Dallas", false);
    var laHouston := Shipment("la-hou", 80000, 10000, 800, "LA", "Houston", false);
    var pool := [laDallas, laHouston];
    FilterKeepsValid(pool, DefaultTruck);
    assert !Homogeneous(pool) by {
      assert laDallas in pool && laHouston in pool;
      assert |LowerCase("Dallas")| != |LowerCase("Houston")|;
    }
    assert IsLoadFrom(DefaultTruck, pool, [laDallas]) by {
      assert Total([laDallas], Weight) == 15000 + Total([], Weight);
      assert Total([laDallas], Volume) == 1000 + Total([], Volume);
    }
    assert Total([laDallas], Payout) == 100000 + Total([], Payout);
    ghost var selected;
    plan, selected := Optimize(DefaultTruck, Some(pool));
    ExclusivePair(DefaultTruck, laDallas, laHouston, selected);
    PlanOfSingle(plan, DefaultTruck, selected, laDallas);
  }

  /** Routes are compared ignoring case: "LA"/"Dallas" and "la"/"dallas"
      share a load. */
  method CaseInsensitiveRoutes() returns (plan: LoadPlan)
    ensures |plan.selectedOrderIds| == 2
    ensures plan.totalPayoutCents == 180000
  {
    var order1 := Shipment("ord1", 100000, 15000, 1000, "LA", "Dallas", false);
    var order2 := Shipment("ord2", 80000, 10000, 800, "la", "dallas", false);
    var pool := [order1, order2];
    assert Candidates(DefaultTruck, Some(pool)) == pool by {
      FilterKeepsValid(pool, DefaultTruck);
    }
    assert Feasible(DefaultTruck, pool) by {
      assert LowerCase("LA") == "la" == LowerCase("la");
      assert LowerCase("Dallas") == "dallas" == LowerCase("dallas");
      HomogeneousLike(pool, order1);
      TotalPair(order1, order2, Weight);
      TotalPair(order1, order2, Volume);
    }
    TotalPair(order1, order2, Payout);
    ghost var selected;
    plan, selected := Optimize(DefaultTruck, Some(pool));
    PlanTakesWholePool(plan, DefaultTruck, selected, pool);
  }

  /** An order picked up after its delivery date is never selected, even
      when it pays more. */
  method FilterInvalidDates() returns (plan: LoadPlan)
    ensures plan.selectedOrderIds == ["valid"]
  {
    var valid := Shipment("valid", 100000, 15000, 1000, "LA", "Dallas", false);
    var invalid := Order("invalid", 200000, 10000, 500, "LA", "Dallas", 5, 0, false);
    assert FilterValid([valid, invalid], DefaultTruck) == [valid] by {
      assert IsValidFor(valid, DefaultTruck) && !IsValidFor(invalid, DefaultTruck);
      assert [valid, invalid][1..] == [invalid];
      assert [invalid][1..] == [];
      assert FilterValid([invalid], DefaultTruck) == [] + FilterValid([], DefaultTruck);
    }
    var pool := [valid];
    assert Feasible(DefaultTruck, pool) by {
      assert Total(pool, Weight) == 15000 + Total([], Weight);
      assert Total(pool, Volume) == 1000 + Total([], Volume);
    }
    ghost var selected;
    plan, selected := Optimize(DefaultTruck, Some([valid, invalid]));
    OptimumTakesAllWhenAllFit(DefaultTruck, pool, selected);
    PlanOfSingle(plan, DefaultTruck, selected, valid);
  }

  /** Payout is maximised, not the number of orders: one order worth 200000
      beats two worth 50000 each. */
  method MaximizesPayout() returns (plan: LoadPlan)
    ensures plan.selectedOrderIds == ["high"]
    ensures plan.totalPayoutCents == 200000
  {
    var high := Shipment("high", 200000, 40000, 2800, "LA", "Dallas", false);
    var low1 := Shipment("low1", 50000, 20000, 1000, "LA", "Dallas", false);
    var low2 := Shipment("low2", 50000, 20000, 1000, "LA", "Dallas", false);
    var pool := [high, low1, low2];
    FilterKeepsValid(pool, DefaultTruck);
    assert IsLoadFrom(DefaultTruck, pool, [high]) by {
      assert Total([high], Weight) == 40000 + Total([], Weight);
      assert Total([high], Volume) == 2800 + Total([], Volume);
    }
    assert Total([high], Payout) == 200000 + Total([], Payout);
    assert Candidates(DefaultTruck, Some(pool)) == pool;
    ghost var selected;
    plan, selected := Optimize(DefaultTruck, Some(pool));
    assert Total([high], Payout) <= plan.totalPayoutCents;
    HeavyOrderAlone(DefaultTruck, high, low1, low2, selected);
    PlanOfSingle(plan, DefaultTruck, selected, high);
  }

  /** Three orders that fit together are all selected. */
  method ReturnsAllOrderIds() returns (plan: LoadPlan)
    ensures |plan.selectedOrderIds| == 3
    ensures "ord-1" in plan.selectedOrderIds && "ord-2" in plan.selectedOrderIds
         && "ord-3" in plan.selectedOrderIds
  {
    var ord1 := Shipment("ord-1", 100000, 10000, 500, "LA", "Dallas", false);
    var ord2 := Shipment("ord-2", 80000, 10000, 500, "LA", "Dallas", false);
    var ord3 := Shipment("ord-3", 60000, 10000, 500, "LA", "Dallas", false);
    var pool := [ord1, ord2, ord3];
    assert Candidates(DefaultTruck, Some(pool)) == pool by {
      FilterKeepsValid(pool, DefaultTruck);
    }
    assert Feasible(DefaultTruck, pool) by {
      HomogeneousLike(pool, ord1);
      TotalTriple(ord1, ord2, ord3, Weight);
      TotalTriple(ord1, ord2, ord3, Volume);
    }
    ghost var selected;
    plan, selected := Optimize(DefaultTruck, Some(pool));
    PlanTakesWholePool(plan, DefaultTruck, selected, pool);
    assert ord1 in pool && ord2 in pool && ord3 in pool;
  }

  /** Twenty-two small orders on one route: the plan is not empty. */
  method Handles22Orders() returns (plan: LoadPlan)
    ensures plan.selectedOrderIds != []
  {
    var orders: seq<Order> := [];
    for i := 0 to 22
      invariant |orders| == i
      invariant forall o :: o in orders ==> IsValidFor(o, DefaultTruck) && o.payoutCents > 0
    {
      orders := orders + [Shipment("ord-" + DecimalString(i), 10000 + i * 1000, 2000, 100, "LA", "Dallas", false)];
    }
    FilterKeepsValid(orders, DefaultTruck);
    ghost var selected;
    plan, selected := Optimize(DefaultTruck, Some(orders));
    PlanPaysAtLeastEachCandidate(DefaultTruck, Some(orders), orders[0], plan, selected);
  }
}
