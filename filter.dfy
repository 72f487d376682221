/** The first stage of an optimisation: dropping orders that can never be part
    of a load, either because their dates are out of order or because they
    alone exceed one of the truck's limits. */
module Filter {
  import opened Model

  /** An order survives the filter: pickup is not after delivery, and the order
      fits the empty truck by weight and by volume. */
  predicate IsValidFor(o: Order, truck: Truck) {
    !(o.pickupDate > o.deliveryDate)
    && o.weightLbs <= truck.maxWeightLbs
    && o.volumeCuft <= truck.maxVolumeCuft
  }

  /** A valid order is one whose dates are in order and which, on its own,
      is within the truck's limits. */
  lemma ValidIffAloneFits(o: Order, truck: Truck)
    ensures IsValidFor(o, truck) <==> o.pickupDate <= o.deliveryDate && Fits(truck, [o])
  {
    assert Total([o], Weight) == o.weightLbs + Total([], Weight);
    assert Total([o], Volume) == o.volumeCuft + Total([], Volume);
  }

  /** The surviving orders, in input order. */
  function FilterValid(orders: seq<Order>, truck: Truck): seq<Order> {
    if orders == [] then []
    else (if IsValidFor(orders[0], truck) then [orders[0]] else []) + FilterValid(orders[1..], truck)
  }

  /** Filtering a concatenation filters each part and keeps the parts in order. */
  lemma {:induction false} FilterValidAppend(a: seq<Order>, b: seq<Order>, truck: Truck)
    ensures FilterValid(a + b, truck) == FilterValid(a, truck) + FilterValid(b, truck)
  {
    if a == [] {
      assert a + b == b;
    } else {
      assert (a + b)[1..] == a[1..] + b;
      FilterValidAppend(a[1..], b, truck);
    }
  }

  /** Every occurrence of a valid order is kept and every occurrence of an
      invalid one is dropped. */
  lemma {:induction false} FilterValidCount(orders: seq<Order>, truck: Truck, o: Order)
    ensures multiset(FilterValid(orders, truck))[o]
         == if IsValidFor(o, truck) then multiset(orders)[o] else 0
  {
    if orders != [] {
      FilterValidCount(orders[1..], truck, o);
      assert orders == [orders[0]] + orders[1..];
    }
  }

  /** The filtered list draws its orders from the input without reuse, so it
      is never longer, and holds valid orders only. */
  lemma FilterValidSubsequence(orders: seq<Order>, truck: Truck)
    ensures multiset(FilterValid(orders, truck)) <= multiset(orders)
    ensures |FilterValid(orders, truck)| <= |orders|
    ensures forall o :: o in FilterValid(orders, truck) ==> IsValidFor(o, truck)
  {
    var r := FilterValid(orders, truck);
    forall o ensures multiset(r)[o] <= multiset(orders)[o] {
      FilterValidCount(orders, truck, o);
    }
    assert |r| == |multiset(r)| && |orders| == |multiset(orders)|;
    assert multiset(orders) == multiset(r) + (multiset(orders) - multiset(r));
    forall o | o in r ensures IsValidFor(o, truck) {
      FilterValidCount(orders, truck, o);
      assert o in multiset(r);
    }
  }

  /** An order is in the filtered list exactly when it is in the input and valid. */
  lemma FilterValidMembers(orders: seq<Order>, truck: Truck, o: Order)
    ensures o in FilterValid(orders, truck) <==> o in orders && IsValidFor(o, truck)
  {
    FilterValidCount(orders, truck, o);
    assert o in FilterValid(orders, truck) <==> o in multiset(FilterValid(orders, truck));
    assert o in orders <==> o in multiset(orders);
  }

  /** The filter loop: appends, in input order, each order that passes the
      date check and fits the truck. */
  method FilterValidOrders(orders: seq<Order>, truck: Truck) returns (valid: seq<Order>)
    ensures valid == FilterValid(orders, truck)
    ensures forall o :: o in valid <==> o in orders && IsValidFor(o, truck)
  {
    valid := [];
    for i := 0 to |orders|
      invariant valid == FilterValid(orders[..i], truck)
    {
      var order := orders[i];
      assert orders[..i + 1] == orders[..i] + [order];
      FilterValidAppend(orders[..i], [order], truck);
      if order.pickupDate > order.deliveryDate {
        continue;
      }
      if order.weightLbs <= truck.maxWeightLbs && order.volumeCuft <= truck.maxVolumeCuft {
        valid := valid + [order];
      }
    }
    assert orders[..|orders|] == orders;
    forall o ensures o in valid <==> o in orders && IsValidFor(o, truck) {
      FilterValidMembers(orders, truck, o);
    }
  }
}
