/** The exact search: backtracking over the arranged candidates, scanning
    forward from an index, with a suffix-sum bound that abandons branches which
    cannot beat the best load found so far. */
module Search {
  import opened Model
  import opened Compatibility

  // ---------------------------------------------------------------------------
  // Selections by position

  /** A strictly increasing list of positions, all in [lo, hi). */
  ghost predicate IncreasingIn(idx: seq<nat>, lo: nat, hi: nat) {
    && (forall k :: 0 <= k < |idx| ==> lo <= idx[k] < hi)
    && (forall j, k :: 0 <= j < k < |idx| ==> idx[j] < idx[k])
  }

  lemma IncreasingCons(first: nat, tail: seq<nat>, hi: nat)
    requires first < hi && IncreasingIn(tail, first + 1, hi)
    ensures IncreasingIn([first] + tail, first, hi)
  {
    var ext := [first] + tail;
    forall k | 0 <= k < |ext| ensures first <= ext[k] < hi {
      if k > 0 { assert ext[k] == tail[k - 1]; }
    }
    forall j, k | 0 <= j < k < |ext| ensures ext[j] < ext[k] {
      assert ext[k] == tail[k - 1];
      if j > 0 { assert ext[j] == tail[j - 1]; }
    }
  }

  lemma IncreasingTail(ext: seq<nat>, lo: nat, hi: nat)
    requires ext != [] && IncreasingIn(ext, lo, hi)
    ensures IncreasingIn(ext[1..], ext[0] + 1, hi)
  {
    var tail := ext[1..];
    forall k | 0 <= k < |tail| ensures ext[0] + 1 <= tail[k] < hi {
      assert tail[k] == ext[k + 1];
    }
    forall j, k | 0 <= j < k < |tail| ensures tail[j] < tail[k] {
      assert tail[j] == ext[j + 1] && tail[k] == ext[k + 1];
    }
  }

  lemma IncreasingSnoc(idx: seq<nat>, last: nat, lo: nat)
    requires IncreasingIn(idx, 0, lo) && lo <= last
    ensures IncreasingIn(idx + [last], 0, last + 1)
  {
    var ext := idx + [last];
    forall k | 0 <= k < |ext| ensures ext[k] < last + 1 {
      if k < |idx| { assert ext[k] == idx[k]; }
    }
    forall j, k | 0 <= j < k < |ext| ensures ext[j] < ext[k] {
      assert ext[j] == idx[j];
      if k < |idx| { assert ext[k] == idx[k]; }
    }
  }

  /** The orders at the given positions, in the order of the positions. */
  function Pick(orders: seq<Order>, idx: seq<nat>): (r: seq<Order>)
    requires forall k :: 0 <= k < |idx| ==> idx[k] < |orders|
    ensures |r| == |idx|
  {
    seq(|idx|, k requires 0 <= k < |idx| => orders[idx[k]])
  }

  /** Picking at increasing positions below `hi` draws from orders[..hi] without reuse. */
  lemma {:induction false} PickSubMultiset(orders: seq<Order>, idx: seq<nat>, hi: nat)
    requires hi <= |orders| && IncreasingIn(idx, 0, hi)
    ensures multiset(Pick(orders, idx)) <= multiset(orders[..hi])
    decreases |idx|
  {
    if idx == [] {
      assert Pick(orders, idx) == [];
    } else {
      var last := idx[|idx| - 1];
      var init := idx[..|idx| - 1];
      assert IncreasingIn(init, 0, last);
      PickSubMultiset(orders, init, last);
      assert Pick(orders, idx) == Pick(orders, init) + [orders[last]];
      assert orders[..hi] == orders[..last] + [orders[last]] + orders[last + 1..hi];
    }
  }

  lemma PickedFromOrders(orders: seq<Order>, idx: seq<nat>, hi: nat)
    requires hi <= |orders| && IncreasingIn(idx, 0, hi)
    ensures multiset(Pick(orders, idx)) <= multiset(orders)
  {
    PickSubMultiset(orders, idx, hi);
    assert orders == orders[..hi] + orders[hi..];
  }

  lemma SubMultisetSkip(m: multiset<Order>, x: Order, rest: seq<Order>)
    requires m <= multiset([x] + rest) && x !in m
    ensures m <= multiset(rest)
  {
    assert multiset([x] + rest) == multiset{x} + multiset(rest);
    forall y ensures m[y] <= multiset(rest)[y] {
      if y == x { assert m[y] == 0; }
    }
  }

  lemma SubMultisetTake(m: multiset<Order>, x: Order, rest: seq<Order>)
    requires m <= multiset([x] + rest) && x in m
    ensures m - multiset{x} <= multiset(rest)
  {
    assert multiset([x] + rest) == multiset{x} + multiset(rest);
  }

  lemma PickCons(orders: seq<Order>, first: nat, tail: seq<nat>, m: multiset<Order>)
    requires first < |orders| && forall k :: 0 <= k < |tail| ==> tail[k] < |orders|
    requires orders[first] in m && multiset(Pick(orders, tail)) == m - multiset{orders[first]}
    ensures multiset(Pick(orders, [first] + tail)) == m
  {
    var x, picked := orders[first], Pick(orders, tail);
    assert Pick(orders, [first] + tail) == [x] + picked;
    assert multiset([x] + picked) == multiset{x} + multiset(picked);
    forall y ensures (multiset{x} + multiset(picked))[y] == m[y] {
      if y == x {
        assert multiset(picked)[y] == m[y] - 1;
      } else {
        assert multiset(picked)[y] == m[y];
      }
    }
  }

  /** Positions, increasing from `lo`, at which `orders` holds exactly the sub-multiset `m`:
      every sub-multiset of orders[lo..] is picked by some increasing choice of positions. */
  ghost function PositionsOf(orders: seq<Order>, m: multiset<Order>, lo: nat): (ext: seq<nat>)
    requires lo <= |orders| && m <= multiset(orders[lo..])
    ensures IncreasingIn(ext, lo, |orders|) && multiset(Pick(orders, ext)) == m
    decreases |orders| - lo
  {
    if lo == |orders| then
      assert m == multiset{};
      []
    else
      var x := orders[lo];
      assert orders[lo..] == [x] + orders[lo + 1..];
      if x in m then
        SubMultisetTake(m, x, orders[lo + 1..]);
        var tail := PositionsOf(orders, m - multiset{x}, lo + 1);
        IncreasingCons(lo, tail, |orders|);
        PickCons(orders, lo, tail, m);
        [lo] + tail
      else
        SubMultisetSkip(m, x, orders[lo + 1..]);
        PositionsOf(orders, m, lo + 1)
  }

  // ---------------------------------------------------------------------------
  // Suffix payouts: the pruning bound

  /** suffix[i] is the total payout of orders[i..]; filled from the back. */
  method SuffixPayouts(orders: seq<Order>) returns (suffix: array<nat>)
    ensures suffix.Length == |orders| + 1
    ensures suffix[|orders|] == 0
    ensures forall i :: 0 <= i < |orders| ==> suffix[i] == orders[i].payoutCents + suffix[i + 1]
    ensures forall i :: 0 <= i <= |orders| ==> suffix[i] == Total(orders[i..], Payout)
  {
    suffix := new nat[|orders| + 1](_ => 0);
    var i := |orders|;
    assert orders[|orders|..] == [];
    while i > 0
      invariant 0 <= i <= |orders|
      invariant forall j :: i <= j <= |orders| ==> suffix[j] == Total(orders[j..], Payout)
    {
      i := i - 1;
      suffix[i] := suffix[i + 1] + orders[i].payoutCents;
      assert orders[i..][1..] == orders[i + 1..];
    }
    forall i | 0 <= i < |orders| ensures suffix[i] == orders[i].payoutCents + suffix[i + 1] {
      assert orders[i..][1..] == orders[i + 1..];
    }
  }

  /** The suffix sum from `lo` bounds the payout of any choice of orders at or after `lo`. */
  lemma {:induction false} SuffixBound(orders: seq<Order>, ext: seq<nat>, lo: nat)
    requires lo <= |orders| && IncreasingIn(ext, lo, |orders|)
    ensures Total(Pick(orders, ext), Payout) <= Total(orders[lo..], Payout)
    decreases |ext|
  {
    if ext != [] {
      var j := ext[0];
      var tail := ext[1..];
      IncreasingTail(ext, lo, |orders|);
      SuffixBound(orders, tail, j + 1);
      assert Pick(orders, ext) == [orders[j]] + Pick(orders, tail);
      TotalAppend([orders[j]], Pick(orders, tail), Payout);
      assert Total([orders[j]], Payout) == orders[j].payoutCents + Total([], Payout);
      assert orders[lo..] == orders[lo..j] + orders[j..];
      TotalAppend(orders[lo..j], orders[j..], Payout);
      assert orders[j..][1..] == orders[j + 1..];
    }
  }

  // ---------------------------------------------------------------------------
  // The mutable state of one search

  /** The best load found so far; created afresh for every optimisation. */
  class Result {
    var bestPayout: nat
    var bestCombination: seq<Order>

    constructor ()
      ensures bestPayout == 0 && bestCombination == []
    {
      bestPayout := 0;
      bestCombination := [];
    }

    /** The recorded best is a feasible load from `orders` and its payout is recorded exactly. */
    ghost predicate Holds(truck: Truck, orders: seq<Order>)
      reads this
    {
      && bestPayout == Total(bestCombination, Payout)
      && Feasible(truck, bestCombination)
      && multiset(bestCombination) <= multiset(orders)
    }
  }

  /** The selection under construction, grown and shrunk at its end. */
  class Selection {
    var items: seq<Order>

    constructor ()
      ensures items == []
    {
      items := [];
    }

    method Add(o: Order)
      modifies this
      ensures items == old(items) + [o]
    {
      items := items + [o];
    }

    method RemoveLast()
      requires items != []
      modifies this
      ensures items == old(items)[..|old(items)| - 1]
    {
      items := items[..|items| - 1];
    }
  }

  // ---------------------------------------------------------------------------
  // What the search has covered

  /** Extending `cur` by the orders at positions `ext` gives an infeasible load
      or one paying no more than `best`. */
  ghost predicate Dominated(truck: Truck, orders: seq<Order>, cur: seq<Order>, ext: seq<nat>, best: nat)
    requires forall k :: 0 <= k < |ext| ==> ext[k] < |orders|
  {
    Feasible(truck, cur + Pick(orders, ext)) ==> Total(cur + Pick(orders, ext), Payout) <= best
  }

  /** Every increasing extension of `cur` from positions `lo..` whose first
      position is below `hi` (or that is empty) is dominated by `best`. */
  ghost predicate CoveredBelow(truck: Truck, orders: seq<Order>, cur: seq<Order>, lo: nat, hi: nat, best: nat) {
    forall ext :: IncreasingIn(ext, lo, |orders|) && (ext == [] || ext[0] < hi)
      ==> Dominated(truck, orders, cur, ext, best)
  }

  lemma CoveredMonotone(truck: Truck, orders: seq<Order>, cur: seq<Order>, lo: nat, hi: nat, best: nat, best': nat)
    requires CoveredBelow(truck, orders, cur, lo, hi, best) && best <= best'
    ensures CoveredBelow(truck, orders, cur, lo, hi, best')
  {}

  /** Once `cur` itself is dominated, nothing below `lo` remains to cover. */
  lemma CoveredStart(truck: Truck, orders: seq<Order>, cur: seq<Order>, lo: nat, best: nat)
    requires lo <= |orders| && Total(cur, Payout) <= best
    ensures CoveredBelow(truck, orders, cur, lo, lo, best)
  {
    forall ext | IncreasingIn(ext, lo, |orders|) && (ext == [] || ext[0] < lo)
      ensures Dominated(truck, orders, cur, ext, best)
    {
      assert ext == [];
      assert cur + Pick(orders, ext) == cur;
    }
  }

  /** The prune is sound: when the suffix bound cannot beat `best`, no extension can. */
  lemma CoveredByPrune(truck: Truck, orders: seq<Order>, cur: seq<Order>, lo: nat, best: nat)
    requires lo <= |orders|
    requires Total(cur, Payout) + Total(orders[lo..], Payout) <= best
    ensures CoveredBelow(truck, orders, cur, lo, |orders|, best)
  {
    forall ext | IncreasingIn(ext, lo, |orders|)
      ensures Dominated(truck, orders, cur, ext, best)
    {
      SuffixBound(orders, ext, lo);
      TotalAppend(cur, Pick(orders, ext), Payout);
    }
  }

  /** A feasible load passes both checks of the search at each of its orders. */
  lemma PrefixPassesChecks(truck: Truck, cur: seq<Order>, o: Order, rest: seq<Order>)
    requires Homogeneous(cur)
    ensures Feasible(truck, (cur + [o]) + rest) ==>
      && Total(cur, Weight) + o.weightLbs <= truck.maxWeightLbs
      && Total(cur, Volume) + o.volumeCuft <= truck.maxVolumeCuft
      && IsCompatible(o, cur)
  {
    var whole := (cur + [o]) + rest;
    TotalAppend(cur + [o], rest, Weight);
    TotalAppend(cur + [o], rest, Volume);
    TotalSnoc(cur, o, Weight);
    TotalSnoc(cur, o, Volume);
    if Homogeneous(whole) {
      assert forall x :: x in cur + [o] ==> x in whole;
      CompatibleIffHomogeneous(o, cur);
    }
  }

  /** Skipping the order at position i loses nothing when it fails a check. */
  lemma CoveredSkip(truck: Truck, orders: seq<Order>, cur: seq<Order>, lo: nat, i: nat, best: nat)
    requires lo <= i < |orders| && Homogeneous(cur)
    requires CoveredBelow(truck, orders, cur, lo, i, best)
    requires || Total(cur, Weight) + orders[i].weightLbs > truck.maxWeightLbs
             || Total(cur, Volume) + orders[i].volumeCuft > truck.maxVolumeCuft
             || !IsCompatible(orders[i], cur)
    ensures CoveredBelow(truck, orders, cur, lo, i + 1, best)
  {
    forall ext | IncreasingIn(ext, lo, |orders|) && (ext == [] || ext[0] < i + 1)
      ensures Dominated(truck, orders, cur, ext, best)
    {
      if ext != [] && ext[0] == i {
        var tail := ext[1..];
        assert Pick(orders, ext) == [orders[i]] + Pick(orders, tail);
        assert cur + Pick(orders, ext) == (cur + [orders[i]]) + Pick(orders, tail);
        PrefixPassesChecks(truck, cur, orders[i], Pick(orders, tail));
      }
    }
  }

  /** Taking the order at position i covers every extension that starts there. */
  lemma CoveredTake(truck: Truck, orders: seq<Order>, cur: seq<Order>, lo: nat, i: nat, earlier: nat, best: nat)
    requires lo <= i < |orders| && earlier <= best
    requires CoveredBelow(truck, orders, cur, lo, i, earlier)
    requires CoveredBelow(truck, orders, cur + [orders[i]], i + 1, |orders|, best)
    ensures CoveredBelow(truck, orders, cur, lo, i + 1, best)
  {
    forall ext | IncreasingIn(ext, lo, |orders|) && (ext == [] || ext[0] < i + 1)
      ensures Dominated(truck, orders, cur, ext, best)
    {
      if ext != [] && ext[0] == i {
        var tail := ext[1..];
        IncreasingTail(ext, lo, |orders|);
        assert Dominated(truck, orders, cur + [orders[i]], tail, best);
        assert Pick(orders, ext) == [orders[i]] + Pick(orders, tail);
        assert cur + Pick(orders, ext) == (cur + [orders[i]]) + Pick(orders, tail);
      }
    }
  }

  /** Adding an order at position i >= index that passes both checks keeps the
      selection feasible and picked at increasing positions. */
  lemma TakeStep(truck: Truck, orders: seq<Order>, picked: seq<nat>, index: nat, i: nat)
    requires index <= i < |orders| && IncreasingIn(picked, 0, index)
    requires Feasible(truck, Pick(orders, picked))
    requires Total(Pick(orders, picked), Weight) + orders[i].weightLbs <= truck.maxWeightLbs
    requires Total(Pick(orders, picked), Volume) + orders[i].volumeCuft <= truck.maxVolumeCuft
    requires IsCompatible(orders[i], Pick(orders, picked))
    ensures IncreasingIn(picked + [i], 0, i + 1)
    ensures Pick(orders, picked + [i]) == Pick(orders, picked) + [orders[i]]
    ensures Feasible(truck, Pick(orders, picked) + [orders[i]])
    ensures Total(Pick(orders, picked) + [orders[i]], Payout) == Total(Pick(orders, picked), Payout) + orders[i].payoutCents
    ensures Total(Pick(orders, picked) + [orders[i]], Weight) == Total(Pick(orders, picked), Weight) + orders[i].weightLbs
    ensures Total(Pick(orders, picked) + [orders[i]], Volume) == Total(Pick(orders, picked), Volume) + orders[i].volumeCuft
  {
    var cur := Pick(orders, picked);
    IncreasingSnoc(picked, i, index);
    assert Pick(orders, picked + [i]) == cur + [orders[i]];
    TotalSnoc(cur, orders[i], Payout);
    TotalSnoc(cur, orders[i], Weight);
    TotalSnoc(cur, orders[i], Volume);
    CompatibleIffHomogeneous(orders[i], cur);
  }

  // ---------------------------------------------------------------------------
  // The search

  /** One decision point: record `current` if it beats the best, stop at the
      end or when the bound cannot beat the best, otherwise try every later
      order that fits and is compatible, recursing with it added and removing
      it afterwards. On return `current` is as before, the best never got
      worse, and no extension of `current` from `index` on beats it. */
  method Backtrack(orders: seq<Order>, truck: Truck, index: nat, current: Selection,
                   currentPayout: nat, currentWeight: nat, currentVolume: nat,
                   result: Result, suffixPayouts: array<nat>, ghost picked: seq<nat>)
    requires index <= |orders|
    requires suffixPayouts.Length == |orders| + 1
    requires forall j :: 0 <= j <= |orders| ==> suffixPayouts[j] == Total(orders[j..], Payout)
    requires IncreasingIn(picked, 0, index) && current.items == Pick(orders, picked)
    requires Feasible(truck, current.items)
    requires currentPayout == Total(current.items, Payout)
    requires currentWeight == Total(current.items, Weight)
    requires currentVolume == Total(current.items, Volume)
    requires result.Holds(truck, orders)
    modifies result, current
    ensures current.items == old(current.items)
    ensures result.Holds(truck, orders)
    ensures old(result.bestPayout) <= result.bestPayout
    ensures CoveredBelow(truck, orders, current.items, index, |orders|, result.bestPayout)
    decreases |orders| - index
  {
    ghost var cur := current.items;
    if currentPayout > result.bestPayout {
      PickedFromOrders(orders, picked, index);
      result.bestPayout := currentPayout;
      result.bestCombination := current.items;
    }

    if index >= |orders| {
      CoveredStart(truck, orders, cur, index, result.bestPayout);
      return;
    }

    if currentPayout + suffixPayouts[index] <= result.bestPayout {
      CoveredByPrune(truck, orders, cur, index, result.bestPayout);
      return;
    }

    CoveredStart(truck, orders, cur, index, result.bestPayout);
    for i := index to |orders|
      invariant current.items == cur
      invariant result.Holds(truck, orders)
      invariant old(result.bestPayout) <= result.bestPayout
      invariant CoveredBelow(truck, orders, cur, index, i, result.bestPayout)
    {
      var order := orders[i];
      var newWeight := currentWeight + order.weightLbs;
      var newVolume := currentVolume + order.volumeCuft;

      if newWeight > truck.maxWeightLbs || newVolume > truck.maxVolumeCuft {
        CoveredSkip(truck, orders, cur, index, i, result.bestPayout);
        continue;
      }
      if !IsCompatible(order, current.items) {
        CoveredSkip(truck, orders, cur, index, i, result.bestPayout);
        continue;
      }

      ghost var bestBefore := result.bestPayout;
      TakeStep(truck, orders, picked, index, i);

      ghost var grown := cur + [order];
      current.Add(order);
      Backtrack(orders, truck, i + 1, current, currentPayout + order.payoutCents,
                newWeight, newVolume, result, suffixPayouts, picked + [i]);
      assert current.items == grown;
      current.RemoveLast();
      assert current.items == cur by {
        assert grown[..|grown| - 1] == cur;
      }
      CoveredTake(truck, orders, cur, index, i, bestBefore, result.bestPayout);
    }
  }

  /** A complete search from index 0 with the empty selection is optimal over
      every feasible load drawn from any arrangement-equivalent pool. */
  lemma SearchOptimal(truck: Truck, pool: seq<Order>, orders: seq<Order>, best: nat)
    requires multiset(orders) == multiset(pool)
    requires CoveredBelow(truck, orders, [], 0, |orders|, best)
    ensures forall load :: IsLoadFrom(truck, pool, load) ==> Total(load, Payout) <= best
  {
    forall load | IsLoadFrom(truck, pool, load) ensures Total(load, Payout) <= best {
      assert orders[0..] == orders;
      var ext := PositionsOf(orders, multiset(load), 0);
      FeasiblePermutation(truck, load, Pick(orders, ext));
      TotalPermutation(load, Pick(orders, ext), Payout);
      assert [] + Pick(orders, ext) == Pick(orders, ext);
      assert Dominated(truck, orders, [], ext, best);
    }
  }
}
