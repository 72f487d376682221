/** Turning the chosen orders into the response: their ids in order, the
    integer totals, and the two utilisation percentages. */
module Assembly {
  import opened Model

  /** The response of one optimisation. Utilisation is kept as hundredths of a
      percent: 4545 stands for 45.45%. */
  datatype LoadPlan = LoadPlan(
    truckId: string,
    selectedOrderIds: seq<string>,
    totalPayoutCents: nat,
    totalWeightLbs: nat,
    totalVolumeCuft: nat,
    utilizationWeightHundredths: nat,
    utilizationVolumeHundredths: nat)

  /** 100 * total / capacity percent rounded half-up to two decimals, in
      hundredths of a percent; zero when the capacity is zero. */
  function UtilizationHundredths(total: nat, capacity: nat): (r: nat)
    ensures capacity == 0 ==> r == 0
    ensures capacity > 0 ==> 2 * r * capacity <= 20000 * total + capacity < 2 * (r + 1) * capacity
  {
    if capacity > 0 then (20000 * total + capacity) / (2 * capacity) else 0
  }

  /** A selection within the capacity never shows more than 100.00%. */
  lemma UtilizationAtMostFull(total: nat, capacity: nat)
    requires total <= capacity
    ensures UtilizationHundredths(total, capacity) <= 10000
  {
    if capacity > 0 {
      var r := UtilizationHundredths(total, capacity);
      assert (2 * r) * capacity < 20002 * capacity;
    }
  }

  /** `plan` reports `selected` for `truck`: the truck id unchanged, the order
      ids in selection order, the sums over the selection, and the rounded
      utilisation of each capacity. */
  ghost predicate Describes(plan: LoadPlan, truck: Truck, selected: seq<Order>) {
    && plan.truckId == truck.id
    && |plan.selectedOrderIds| == |selected|
    && (forall k :: 0 <= k < |selected| ==> plan.selectedOrderIds[k] == selected[k].id)
    && plan.totalPayoutCents == Total(selected, Payout)
    && plan.totalWeightLbs == Total(selected, Weight)
    && plan.totalVolumeCuft == Total(selected, Volume)
    && plan.utilizationWeightHundredths == UtilizationHundredths(plan.totalWeightLbs, truck.maxWeightLbs)
    && plan.utilizationVolumeHundredths == UtilizationHundredths(plan.totalVolumeCuft, truck.maxVolumeCuft)
  }

  /** An empty selection is reported with no ids and every total and
      utilisation zero. */
  lemma EmptySelectionPlan(plan: LoadPlan, truck: Truck)
    requires Describes(plan, truck, [])
    ensures plan.selectedOrderIds == []
    ensures plan.totalPayoutCents == 0 && plan.totalWeightLbs == 0 && plan.totalVolumeCuft == 0
    ensures plan.utilizationWeightHundredths == 0 && plan.utilizationVolumeHundredths == 0
  {}

  /** The response builder: one pass over the selection accumulating ids and totals. */
  method BuildResponse(truck: Truck, selected: seq<Order>) returns (plan: LoadPlan)
    ensures Describes(plan, truck, selected)
  {
    var orderIds: seq<string> := [];
    var totalPayout: nat := 0;
    var totalWeight: nat := 0;
    var totalVolume: nat := 0;
    for i := 0 to |selected|
      invariant |orderIds| == i
      invariant forall k :: 0 <= k < i ==> orderIds[k] == selected[k].id
      invariant totalPayout == Total(selected[..i], Payout)
      invariant totalWeight == Total(selected[..i], Weight)
      invariant totalVolume == Total(selected[..i], Volume)
    {
      var order := selected[i];
      assert selected[..i + 1] == selected[..i] + [order];
      TotalSnoc(selected[..i], order, Payout);
      TotalSnoc(selected[..i], order, Weight);
      TotalSnoc(selected[..i], order, Volume);
      orderIds := orderIds + [order.id];
      totalPayout := totalPayout + order.payoutCents;
      totalWeight := totalWeight + order.weightLbs;
      totalVolume := totalVolume + order.volumeCuft;
    }
    assert selected[..|selected|] == selected;
    var weightHundredths := UtilizationHundredths(totalWeight, truck.maxWeightLbs);
    var volumeHundredths := UtilizationHundredths(totalVolume, truck.maxVolumeCuft);
    plan := LoadPlan(truck.id, orderIds, totalPayout, totalWeight, totalVolume,
                     weightHundredths, volumeHundredths);
  }
}
