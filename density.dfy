/** The ordering step before the search: orders by descending payout per unit
    of (weight + volume), stable for ties. The order only speeds up pruning;
    the search is optimal for any arrangement of the candidates. */
module Density {
  import opened Model

  /** `a` may come before `b`: a's payout density is at least b's. Densities
      are compared exactly, by cross-multiplication. */
  predicate DenserOrEqual(a: Order, b: Order) {
    a.payoutCents * (b.weightLbs + b.volumeCuft) >= b.payoutCents * (a.weightLbs + a.volumeCuft)
  }

  /** Puts `o` before the first element it is at least as dense as. */
  function Insert(o: Order, sorted: seq<Order>): (r: seq<Order>)
    ensures multiset(r) == multiset(sorted) + multiset{o}
  {
    if sorted == [] || DenserOrEqual(o, sorted[0]) then [o] + sorted
    else
      assert sorted == [sorted[0]] + sorted[1..];
      [sorted[0]] + Insert(o, sorted[1..])
  }

  /** The number of leading elements of `sorted` that `o` is not at least as
      dense as: the position `Insert` puts `o` at. */
  function InsertionPoint(o: Order, sorted: seq<Order>): (k: nat)
    ensures k <= |sorted|
  {
    if sorted == [] || DenserOrEqual(o, sorted[0]) then 0
    else 1 + InsertionPoint(o, sorted[1..])
  }

  /** `Insert` puts `o` at its insertion point and keeps the elements
      ahead of it in place. */
  lemma {:induction false} InsertPlacement(o: Order, sorted: seq<Order>)
    ensures |Insert(o, sorted)| == |sorted| + 1
    ensures Insert(o, sorted)[InsertionPoint(o, sorted)] == o
    ensures forall i :: 0 <= i < InsertionPoint(o, sorted) ==> Insert(o, sorted)[i] == sorted[i]
  {
    if sorted != [] && !DenserOrEqual(o, sorted[0]) {
      var tail := sorted[1..];
      var r, rest := Insert(o, sorted), Insert(o, tail);
      InsertPlacement(o, tail);
      assert r == [sorted[0]] + rest;
      assert forall i :: 1 <= i < |r| ==> r[i] == rest[i - 1];
      assert forall i :: 1 <= i < |sorted| ==> sorted[i] == tail[i - 1];
    }
  }

  /** `Insert` is stable: the elements after the insertion point keep their
      relative order, each one place further on. */
  lemma {:induction false} InsertShiftsRest(o: Order, sorted: seq<Order>)
    ensures |Insert(o, sorted)| == |sorted| + 1
    ensures forall i :: InsertionPoint(o, sorted) < i <= |sorted| ==> Insert(o, sorted)[i] == sorted[i - 1]
  {
    if sorted != [] && !DenserOrEqual(o, sorted[0]) {
      var tail := sorted[1..];
      var r, rest := Insert(o, sorted), Insert(o, tail);
      InsertShiftsRest(o, tail);
      assert r == [sorted[0]] + rest;
      assert forall i :: 1 <= i < |r| ==> r[i] == rest[i - 1];
      assert forall i :: 1 <= i < |sorted| ==> sorted[i] == tail[i - 1];
    }
  }

  /** Every element ahead of the insertion point is one `o` is not at least
      as dense as, and `o` is at least as dense as the element at it. */
  lemma {:induction false} InsertionPointSeparates(o: Order, sorted: seq<Order>)
    ensures forall i :: 0 <= i < InsertionPoint(o, sorted) ==> !DenserOrEqual(o, sorted[i])
    ensures InsertionPoint(o, sorted) < |sorted| ==> DenserOrEqual(o, sorted[InsertionPoint(o, sorted)])
  {
    if sorted != [] && !DenserOrEqual(o, sorted[0]) {
      var tail := sorted[1..];
      InsertionPointSeparates(o, tail);
      assert forall i :: 1 <= i < |sorted| ==> sorted[i] == tail[i - 1];
    }
  }

  /** Stable insertion sort by descending density. */
  function SortByDensity(s: seq<Order>): (r: seq<Order>)
    ensures multiset(r) == multiset(s)
  {
    if s == [] then []
    else
      assert s == [s[0]] + s[1..];
      Insert(s[0], SortByDensity(s[1..]))
  }

  ghost predicate SortedByDensity(s: seq<Order>) {
    forall i, j :: 0 <= i < j < |s| ==> DenserOrEqual(s[i], s[j])
  }

  lemma MulMono(x: nat, y: nat, k: nat)
    requires x <= y
    ensures x * k <= y * k
  {}

  lemma MulCancel(x: nat, y: nat, k: nat)
    requires k > 0 && x * k <= y * k
    ensures x <= y
  {}

  /** Density order is transitive whenever the middle order has positive size. */
  lemma DenserTransitive(a: Order, b: Order, c: Order)
    requires b.weightLbs + b.volumeCuft > 0
    requires DenserOrEqual(a, b) && DenserOrEqual(b, c)
    ensures DenserOrEqual(a, c)
  {
    var sa, sb, sc := a.weightLbs + a.volumeCuft, b.weightLbs + b.volumeCuft, c.weightLbs + c.volumeCuft;
    var pa, pb, pc := a.payoutCents, b.payoutCents, c.payoutCents;
    MulMono(pb * sa, pa * sb, sc);
    MulMono(pc * sb, pb * sc, sa);
    assert (pb * sa) * sc == (pb * sc) * sa;
    assert (pa * sb) * sc == (pa * sc) * sb;
    assert (pc * sb) * sa == (pc * sa) * sb;
    MulCancel(pc * sa, pa * sc, sb);
  }

  /** A sorted list stays sorted under a head at least as dense as all of it. */
  lemma ConsSorted(x: Order, t: seq<Order>)
    requires SortedByDensity(t)
    requires forall y :: y in t ==> DenserOrEqual(x, y)
    ensures SortedByDensity([x] + t)
  {
    var r := [x] + t;
    forall i, j | 0 <= i < j < |r| ensures DenserOrEqual(r[i], r[j]) {
      assert r[j] == t[j - 1];
      if i > 0 {
        assert r[i] == t[i - 1];
      }
    }
  }

  /** The head of a sorted list of well-formed orders is at least as dense
      as every member. */
  lemma HeadDensest(s: seq<Order>, y: Order)
    requires s != [] && SortedByDensity(s)
    requires y in s
    ensures DenserOrEqual(s[0], y)
  {
    var k :| 0 <= k < |s| && s[k] == y;
    if k > 0 {
      assert DenserOrEqual(s[0], s[k]);
    }
  }

  lemma SortedTail(s: seq<Order>)
    requires s != [] && SortedByDensity(s)
    ensures SortedByDensity(s[1..])
  {
    forall i, j | 0 <= i < j < |s[1..]| ensures DenserOrEqual(s[1..][i], s[1..][j]) {
      assert s[1..][i] == s[i + 1] && s[1..][j] == s[j + 1];
    }
  }

  lemma {:induction false} InsertSorted(o: Order, s: seq<Order>)
    requires forall x :: x in s ==> WellFormedOrder(x)
    requires SortedByDensity(s)
    ensures SortedByDensity(Insert(o, s))
  {
    if s == [] || DenserOrEqual(o, s[0]) {
      forall y | y in s ensures DenserOrEqual(o, y) {
        assert s[0] in s;
        HeadDensest(s, y);
        DenserTransitive(o, s[0], y);
      }
      ConsSorted(o, s);
    } else {
      var t := Insert(o, s[1..]);
      SortedTail(s);
      assert forall x :: x in s[1..] ==> x in s;
      InsertSorted(o, s[1..]);
      forall y | y in t ensures DenserOrEqual(s[0], y) {
        assert y in multiset(t);
        if y != o {
          assert y in multiset(s[1..]);
          HeadDensest(s, y);
        }
      }
      ConsSorted(s[0], t);
    }
  }

  /** With positive weights and volumes, the sort really orders by density. */
  lemma {:induction false} SortByDensitySorted(s: seq<Order>)
    requires forall x :: x in s ==> WellFormedOrder(x)
    ensures SortedByDensity(SortByDensity(s))
  {
    if s != [] {
      assert forall x :: x in s[1..] ==> x in s;
      SortByDensitySorted(s[1..]);
      var t := SortByDensity(s[1..]);
      forall x | x in t ensures WellFormedOrder(x) {
        assert x in multiset(t);
        assert x in multiset(s[1..]);
      }
      InsertSorted(s[0], t);
    }
  }
}
