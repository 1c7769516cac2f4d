/** The limits every child order is cut to. */
module ExecutionCaps {
  import opened Numbers
  import opened ExecutionSpec
  import opened ExecutionProofs

  /** The part of the mean recent volume that a child may take. */
  function VolumeShare(vols: seq<nat>, participation: real): real
    requires |vols| > 0
  {
    SumInts(vols) as real / |vols| as real * participation
  }

  /** Participation limits only when there are volumes and a share of them that reaches one unit. */
  predicate VolumeLimits(vols: seq<nat>, participation: real) {
    |vols| > 0 && participation > 0.0 && VolumeShare(vols, participation) >= 1.0
  }

  /** The exchange's freeze quantity and the volume share allow a child of this size. */
  predicate Allowed(size: int, vols: seq<nat>, participation: real, freeze: Option<PosNat>) {
    && (freeze.Some? ==> size <= freeze.value)
    && (VolumeLimits(vols, participation) ==> size as real <= VolumeShare(vols, participation))
  }

  predicate Limited(vols: seq<nat>, participation: real, freeze: Option<PosNat>) {
    freeze.Some? || VolumeLimits(vols, participation)
  }

  /** The largest whole number of lots that is allowed, or one lot when none is. */
  predicate LargestAllowed(size: int, lot: PosNat, vols: seq<nat>, participation: real, freeze: Option<PosNat>) {
    && size % lot == 0 && size >= lot
    && !Allowed(size + lot, vols, participation, freeze)
    && (size > lot ==> Allowed(size, vols, participation, freeze))
  }

  lemma BaseIsLimit(vols: seq<nat>, participation: real, freeze: Option<PosNat>, qty: int, size: int)
    ensures Limited(vols, participation, freeze) ==>
      (size <= BaseCap(vols, participation, freeze, qty) <==> Allowed(size, vols, participation, freeze))
    ensures !Limited(vols, participation, freeze) ==> BaseCap(vols, participation, freeze, qty) == qty
  {
    if |vols| > 0 && participation > 0.0 {
      var share := VolumeShare(vols, participation);
      FloorIsLargest(share, size);
      FloorIsLargest(share, 1);
      hide SumInts, VolumeShare;
      assert SumInts(vols) as real / |vols| as real * participation == share by { ShareIs(vols, participation); }
    }
  }

  lemma ShareIs(vols: seq<nat>, participation: real)
    requires |vols| > 0
    ensures VolumeShare(vols, participation) == SumInts(vols) as real / |vols| as real * participation
  {
    hide SumInts;
  }

  lemma FloorIsLargest(x: real, n: int)
    ensures n <= x.Floor <==> n as real <= x
  {
  }

  /** The lot-floored cap is the largest size allowed. */
  lemma CapIsLargest(vols: seq<nat>, participation: real, freeze: Option<PosNat>, qty: int, lot: PosNat)
    requires Limited(vols, participation, freeze)
    ensures LargestAllowed(LotCap(BaseCap(vols, participation, freeze, qty), lot), lot, vols, participation, freeze)
  {
    var base := BaseCap(vols, participation, freeze, qty);
    var cap := LotCap(base, lot);
    LotsBelow(base, lot);
    BaseIsLimit(vols, participation, freeze, qty, cap);
    BaseIsLimit(vols, participation, freeze, qty, cap + lot);
    hide BaseCap, Allowed, Limited;
  }

  lemma LotsBelow(base: int, lot: PosNat)
    ensures var cap := LotCap(base, lot); cap % lot == 0 && cap >= lot && cap + lot > base && (cap > lot ==> cap <= base)
  {
    var q := base / lot;
    assert base == lot * q + base % lot && q * lot == lot * q;
    MultipleHasNoRemainder(q, lot);
    MultipleHasNoRemainder(1, lot);
  }

  /** The quantity in parts of one size, and what is left of it last. */
  ghost predicate CutInto(s: seq<int>, qty: int, size: int) {
    |s| > 0 && SumInts(s) == qty && (forall i :: 0 <= i < |s| - 1 ==> s[i] == size) && 0 < s[|s| - 1] <= size
  }

  /** Under a limit every child but the last is the largest allowed, and the last one is no larger; together
      they are the quantity. So none is above the freeze quantity or the volume share, unless one lot is. */
  lemma SlicesObeyTheLimits(qty: int, lot: PosNat, vols: seq<nat>, participation: real, freeze: Option<PosNat>)
    requires qty > 0 && Limited(vols, participation, freeze)
    ensures exists size: int ::
      LargestAllowed(size, lot, vols, participation, freeze) && CutInto(PlanSlices(qty, lot, vols, participation, freeze), qty, size)
    ensures forall c :: c in PlanSlices(qty, lot, vols, participation, freeze) ==>
      && (freeze.Some? ==> c <= lot || c <= freeze.value)
      && (VolumeLimits(vols, participation) ==> c <= lot || c as real <= VolumeShare(vols, participation))
  {
    var size := LotCap(BaseCap(vols, participation, freeze, qty), lot);
    var s := PlanSlices(qty, lot, vols, participation, freeze);
    CapIsLargest(vols, participation, freeze, qty, lot);
    hide BaseCap, LotCap, VolumeShare;
    if size >= qty {
      assert [qty][..0] == [];
      assert SumInts([qty]) == qty;
    } else {
      CutIsExact(qty, size);
    }
    assert LargestAllowed(size, lot, vols, participation, freeze) && CutInto(s, qty, size);
    assert forall c :: c in s ==> c <= size;
  }

  /** Without a limit the quantity goes out whole, but for what is not a whole lot of a larger one. */
  lemma UnlimitedGoesWhole(qty: int, lot: PosNat, vols: seq<nat>, participation: real, freeze: Option<PosNat>)
    requires qty > 0 && !Limited(vols, participation, freeze)
    ensures PlanSlices(qty, lot, vols, participation, freeze)
         == if qty < lot || qty % lot == 0 then [qty] else [qty - qty % lot, qty % lot]
  {
    hide BaseCap, Cut;
    BaseIsLimit(vols, participation, freeze, qty, 0);
    WholeLots(qty, lot);
    if qty >= lot && qty % lot != 0 {
      CutInTwo(qty, qty - qty % lot);
    }
  }

  lemma WholeLots(qty: int, lot: PosNat)
    requires qty > 0
    ensures LotCap(qty, lot) == if qty < lot then lot else qty - qty % lot
  {
    var q := qty / lot;
    assert qty == lot * q + qty % lot;
    if qty >= lot {
      AtLeastOne(lot, q);
      MulAtLeast1(lot, q);
    } else {
      assert q == 0;
    }
  }

  lemma AtLeastOne(lot: PosNat, q: int)
    requires lot * q > 0
    ensures q >= 1
  {
  }

  lemma CutInTwo(qty: int, cap: int)
    requires 0 < cap < qty <= cap + cap
    ensures Cut(qty, cap) == [cap, qty - cap]
  {
    assert Cut(qty - cap, cap) == [qty - cap] + Cut(0, cap);
  }

  lemma MulAtLeast1(lot: PosNat, q: int)
    requires q >= 1
    ensures q * lot >= lot
  {
  }
}
