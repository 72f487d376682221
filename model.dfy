/** The data of one optimisation request (orders and the truck), the sums taken
    over a selection of orders, and the rules every load must respect. */
module Model {

  datatype Option<T> = None | Some(value: T)

  /** A shipping order. Dates are day ordinals; payout is in cents. */
  datatype Order = Order(
    id: string,
    payoutCents: nat,
    weightLbs: nat,
    volumeCuft: nat,
    origin: string,
    destination: string,
    pickupDate: nat,
    deliveryDate: nat,
    isHazmat: bool)

  /** The single truck a load is planned for. */
  datatype Truck = Truck(id: string, maxWeightLbs: nat, maxVolumeCuft: nat)

  /** The field constraints the request layer enforces on an order before the
      service runs: weight and volume are positive (payout is a nat already). */
  predicate WellFormedOrder(o: Order) {
    o.weightLbs > 0 && o.volumeCuft > 0
  }

  /** The three quantities that are summed over a selection. */
  datatype Dimension = Payout | Weight | Volume

  function Amount(o: Order, d: Dimension): nat {
    match d
    case Payout => o.payoutCents
    case Weight => o.weightLbs
    case Volume => o.volumeCuft
  }

  /** Sum of one dimension over a selection of orders. */
  function Total(s: seq<Order>, d: Dimension): nat {
    if s == [] then 0 else Amount(s[0], d) + Total(s[1..], d)
  }

  /** No member's amount exceeds the total, and the total is 0 exactly when
      every member's amount is 0. */
  lemma {:induction false} TotalBoundsMembers(s: seq<Order>, d: Dimension)
    ensures forall i :: 0 <= i < |s| ==> Amount(s[i], d) <= Total(s, d)
    ensures Total(s, d) == 0 <==> forall i :: 0 <= i < |s| ==> Amount(s[i], d) == 0
  {
    if s != [] {
      TotalBoundsMembers(s[1..], d);
      assert forall i :: 1 <= i < |s| ==> s[i] == s[1..][i - 1];
    }
  }

  /** Sums distribute over concatenation. */
  lemma {:induction false} TotalAppend(a: seq<Order>, b: seq<Order>, d: Dimension)
    ensures Total(a + b, d) == Total(a, d) + Total(b, d)
  {
    if a == [] {
      assert a + b == b;
    } else {
      assert (a + b)[1..] == a[1..] + b;
      TotalAppend(a[1..], b, d);
    }
  }

  /** Appending one order adds exactly its amount. */
  lemma TotalSnoc(s: seq<Order>, o: Order, d: Dimension)
    ensures Total(s + [o], d) == Total(s, d) + Amount(o, d)
  {
    TotalAppend(s, [o], d);
    assert Total([o], d) == Amount(o, d) + Total([], d);
  }

  /** Removing the order at position k from a selection takes away exactly its amount. */
  lemma TotalRemove(s: seq<Order>, k: nat, d: Dimension)
    requires k < |s|
    ensures Total(s, d) == Amount(s[k], d) + Total(s[..k] + s[k + 1..], d)
  {
    assert s == (s[..k] + [s[k]]) + s[k + 1..];
    TotalAppend(s[..k] + [s[k]], s[k + 1..], d);
    TotalSnoc(s[..k], s[k], d);
    TotalAppend(s[..k], s[k + 1..], d);
  }

  lemma MultisetRemove(s: seq<Order>, k: nat)
    requires k < |s|
    ensures multiset(s[..k] + s[k + 1..]) == multiset(s) - multiset{s[k]}
  {
    assert s == s[..k] + [s[k]] + s[k + 1..];
    assert multiset(s) == multiset(s[..k]) + multiset{s[k]} + multiset(s[k + 1..]);
  }

  /** Taking the first order of `a` out of `a`, and the same order out of a
      permutation `b` of `a`, leaves permutations of each other. */
  lemma PermutationWithout(a: seq<Order>, b: seq<Order>, k: nat)
    requires a != [] && k < |b| && b[k] == a[0]
    requires multiset(a) == multiset(b)
    ensures multiset(a[1..]) == multiset(b[..k] + b[k + 1..])
  {
    var x := a[0];
    var restA, restB := multiset(a[1..]), multiset(b[..k] + b[k + 1..]);
    MultisetRemove(b, k);
    assert a == [x] + a[1..];
    assert multiset(a) == multiset{x} + restA;
    forall y ensures restA[y] == restB[y] {
      assert multiset(a)[y] == multiset(b)[y];
    }
  }

  /** A sum does not depend on the order in which the orders are listed. */
  lemma {:induction false} TotalPermutation(a: seq<Order>, b: seq<Order>, d: Dimension)
    requires multiset(a) == multiset(b)
    ensures Total(a, d) == Total(b, d)
  {
    if a == [] {
      assert |b| == |multiset(b)| == 0;
    } else {
      assert a[0] in multiset(b) by {
        assert a[0] in multiset(a);
      }
      var k :| 0 <= k < |b| && b[k] == a[0];
      PermutationWithout(a, b, k);
      TotalRemove(b, k, d);
      TotalPermutation(a[1..], b[..k] + b[k + 1..], d);
    }
  }

  /** Splitting off the first order of `b` and, when `a` holds it, the same
      order from `a` keeps `a` inside `b`. */
  lemma SubMultisetWithout(a: seq<Order>, b: seq<Order>, k: nat)
    requires b != [] && k < |a| && a[k] == b[0]
    requires multiset(a) <= multiset(b)
    ensures multiset(a[..k] + a[k + 1..]) <= multiset(b[1..])
    ensures multiset(a) == multiset(b) <==> multiset(a[..k] + a[k + 1..]) == multiset(b[1..])
  {
    var x := b[0];
    var restA, restB := multiset(a[..k] + a[k + 1..]), multiset(b[1..]);
    MultisetRemove(a, k);
    assert b == [x] + b[1..];
    assert multiset(a) == restA + multiset{x} by {
      assert a == a[..k] + [x] + a[k + 1..];
    }
    assert multiset(b) == restB + multiset{x};
    forall y ensures restA[y] <= restB[y] {
      assert multiset(a)[y] <= multiset(b)[y];
    }
  }

  lemma SubMultisetOfTail(a: seq<Order>, b: seq<Order>)
    requires b != [] && b[0] !in a
    requires multiset(a) <= multiset(b)
    ensures multiset(a) <= multiset(b[1..])
    ensures multiset(a) != multiset(b)
  {
    assert b == [b[0]] + b[1..];
    assert multiset(a)[b[0]] == 0;
    assert multiset(b)[b[0]] > 0;
  }

  /** Drawing fewer orders never sums to more; when every amount is positive,
      leaving any order out sums to strictly less. */
  lemma {:induction false} TotalSubMultiset(a: seq<Order>, b: seq<Order>, d: Dimension)
    requires multiset(a) <= multiset(b)
    ensures Total(a, d) <= Total(b, d)
    ensures (forall x :: x in b ==> Amount(x, d) > 0) && multiset(a) != multiset(b) ==>
              Total(a, d) < Total(b, d)
  {
    if b == [] {
      assert |a| == |multiset(a)| == 0;
    } else {
      var tail := b[1..];
      assert Total(b, d) == Amount(b[0], d) + Total(tail, d);
      assert forall y :: y in tail ==> y in b;
      if b[0] in a {
        var k :| 0 <= k < |a| && a[k] == b[0];
        SubMultisetWithout(a, b, k);
        TotalRemove(a, k, d);
        TotalSubMultiset(a[..k] + a[k + 1..], tail, d);
      } else {
        SubMultisetOfTail(a, b);
        TotalSubMultiset(a, tail, d);
      }
    }
  }

  /** ASCII lower-casing of one character; other characters are unchanged. */
  function LowerChar(c: char): char {
    if 'A' <= c <= 'Z' then (c as int - 'A' as int + 'a' as int) as char else c
  }

  function LowerCase(s: string): (r: string)
    ensures |r| == |s|
  {
    seq(|s|, i requires 0 <= i < |s| => LowerChar(s[i]))
  }

  /** Lower-casing leaves no ASCII capital, changes nothing but ASCII
      capitals, and lower-casing again changes nothing. */
  lemma LowerCaseFolds(s: string)
    ensures forall i :: 0 <= i < |s| ==> !('A' <= LowerCase(s)[i] <= 'Z')
    ensures forall i :: 0 <= i < |s| && !('A' <= s[i] <= 'Z') ==> LowerCase(s)[i] == s[i]
    ensures LowerCase(LowerCase(s)) == LowerCase(s)
  {
  }

  /** Case-insensitive string equality: equal after lower-casing. */
  predicate EqualsIgnoreCase(a: string, b: string) {
    LowerCase(a) == LowerCase(b)
  }

  /** Two strings are equal ignoring case exactly when they have the same
      length and agree character by character up to case. */
  lemma EqualsIgnoreCaseCharwise(a: string, b: string)
    ensures EqualsIgnoreCase(a, b) <==>
              |a| == |b| && forall i :: 0 <= i < |a| ==> LowerChar(a[i]) == LowerChar(b[i])
  {
    if |a| == |b| && forall i :: 0 <= i < |a| ==> LowerChar(a[i]) == LowerChar(b[i]) {
      assert LowerCase(a) == LowerCase(b);
    }
    if EqualsIgnoreCase(a, b) {
      forall i | 0 <= i < |a| ensures LowerChar(a[i]) == LowerChar(b[i]) {
        assert LowerCase(a)[i] == LowerCase(b)[i];
      }
    }
  }

  /** Two orders travel the same route: same origin and destination, ignoring case. */
  predicate SameRoute(a: Order, b: Order) {
    EqualsIgnoreCase(a.origin, b.origin) && EqualsIgnoreCase(a.destination, b.destination)
  }

  /** Every two members of the selection share the route and the hazmat flag. */
  ghost predicate Homogeneous(s: seq<Order>) {
    forall a, b :: a in s && b in s ==> SameRoute(a, b) && a.isHazmat == b.isHazmat
  }

  /** The selection's total weight and volume are within the truck's limits. */
  ghost predicate Fits(truck: Truck, s: seq<Order>) {
    Total(s, Weight) <= truck.maxWeightLbs && Total(s, Volume) <= truck.maxVolumeCuft
  }

  /** A selection the truck may carry as one load. */
  ghost predicate Feasible(truck: Truck, s: seq<Order>) {
    Fits(truck, s) && Homogeneous(s)
  }

  /** `load` is a feasible load whose orders are drawn, without reuse, from `pool`. */
  ghost predicate IsLoadFrom(truck: Truck, pool: seq<Order>, load: seq<Order>) {
    multiset(load) <= multiset(pool) && Feasible(truck, load)
  }

  /** Feasibility depends only on which orders are selected, not on their order. */
  lemma FeasiblePermutation(truck: Truck, a: seq<Order>, b: seq<Order>)
    requires multiset(a) == multiset(b)
    ensures Feasible(truck, a) == Feasible(truck, b)
  {
    TotalPermutation(a, b, Weight);
    TotalPermutation(a, b, Volume);
    assert forall x :: x in a <==> x in b by {
      forall x ensures x in a <==> x in b {
        assert x in a <==> x in multiset(a);
        assert x in b <==> x in multiset(b);
      }
    }
  }
}
