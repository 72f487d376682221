/** Whether an order may join the selection being built: it must travel the
    first member's route (ignoring case) and must not mix hazardous and regular
    cargo. */
module Compatibility {
  import opened Model

  /** Some member of `s` has the given hazmat flag (the stream `anyMatch` of the source). */
  function AnyWithHazmat(s: seq<Order>, flag: bool): (r: bool)
    ensures r <==> exists o :: o in s && o.isHazmat == flag
  {
    if s == [] then false
    else if s[0].isHazmat == flag then true
    else
      assert forall o :: o in s ==> o == s[0] || o in s[1..];
      AnyWithHazmat(s[1..], flag)
  }

  /** The compatibility check. An empty selection accepts anything; otherwise
      the route is compared with the first member only, and the hazmat flag
      with every member. */
  function IsCompatible(newOrder: Order, current: seq<Order>): (r: bool)
    ensures current == [] ==> r
    ensures current != [] ==>
      (r <==> SameRoute(newOrder, current[0])
              && forall o :: o in current ==> o.isHazmat == newOrder.isHazmat)
  {
    if current == [] then true
    else
      var first := current[0];
      if !EqualsIgnoreCase(newOrder.origin, first.origin)
         || !EqualsIgnoreCase(newOrder.destination, first.destination)
      then false
      else
        var hasHazmat := AnyWithHazmat(current, true);
        var hasRegular := AnyWithHazmat(current, false);
        if newOrder.isHazmat && hasRegular then false
        else if !newOrder.isHazmat && hasHazmat then false
        else true
  }

  /** Checking against the first member suffices: on a homogeneous selection,
      the check accepts an order exactly when adding it keeps the selection
      homogeneous. */
  lemma CompatibleIffHomogeneous(newOrder: Order, current: seq<Order>)
    requires Homogeneous(current)
    ensures IsCompatible(newOrder, current) <==> Homogeneous(current + [newOrder])
  {
    var ext := current + [newOrder];
    assert forall o :: o in ext <==> o in current || o == newOrder;
    if current != [] {
      var first := current[0];
      assert first in current;
      if IsCompatible(newOrder, current) {
        forall a, b | a in ext && b in ext
          ensures SameRoute(a, b) && a.isHazmat == b.isHazmat
        {
          assert SameRoute(a, first) && a.isHazmat == first.isHazmat;
          assert SameRoute(b, first) && b.isHazmat == first.isHazmat;
        }
      }
      if Homogeneous(ext) {
        assert first in ext && newOrder in ext;
        assert SameRoute(newOrder, first);
      }
    }
  }
}
