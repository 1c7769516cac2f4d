/** Fills derived from what an order's reports say, for brokers that report how much of an order has filled
    but never the fills themselves: what is derived, against what is reported. */
module Synthesis {
  import opened Numbers
  import opened ExecutionSpec

  function LastAt(reports: seq<Heard>): Option<Progressed> {
    if |reports| == 0 then None else Some(reports[|reports| - 1].at)
  }

  function FilledAt(reports: seq<Heard>): nat { FilledIn(LastAt(reports)) }

  /** What the last report adds to the filled quantity; negative if it takes some back. */
  function Delta(reports: seq<Heard>): int
    requires |reports| > 0
  {
    reports[|reports| - 1].at.filled - FilledAt(reports[..|reports| - 1])
  }

  predicate IsUpdate(reports: seq<Heard>)
    requires |reports| > 0
  {
    reports[|reports| - 1].update
  }

  /** The fills published for one order while its reports come in: only those of the update stream make any. */
  function Published(reports: seq<Heard>): seq<Synthetic> {
    if |reports| == 0 then []
    else
      var before, o := reports[..|reports| - 1], reports[|reports| - 1];
      if IsUpdate(reports) && Delta(reports) > 0 then Published(before) + [Synthesise(o.at, Delta(reports), LastAt(before))]
      else Published(before)
  }

  function TotalQty(fills: seq<Synthetic>): int {
    if |fills| == 0 then 0 else TotalQty(fills[..|fills| - 1]) + fills[|fills| - 1].qty
  }

  function Worth(f: Synthetic): real { f.qty as real * f.price }

  function TotalWorth(fills: seq<Synthetic>): real {
    if |fills| == 0 then 0.0 else TotalWorth(fills[..|fills| - 1]) + Worth(fills[|fills| - 1])
  }

  lemma TotalsAppend(fills: seq<Synthetic>, f: Synthetic)
    ensures TotalQty(fills + [f]) == TotalQty(fills) + f.qty
    ensures TotalWorth(fills + [f]) == TotalWorth(fills) + Worth(f)
  {
    assert (fills + [f])[..|fills|] == fills;
  }

  // ---------------------------------------------------------------- quantity

  /** Quantity first seen outside the update stream: in the reply to a placement, a chase or a cancel, or in
      a reconciliation. */
  function Swallowed(reports: seq<Heard>): int {
    if |reports| == 0 then 0
    else Swallowed(reports[..|reports| - 1]) + (if IsUpdate(reports) then 0 else Delta(reports))
  }

  /** Quantity that updates took back. */
  function TakenBack(reports: seq<Heard>): nat {
    if |reports| == 0 then 0
    else TakenBack(reports[..|reports| - 1]) + (if IsUpdate(reports) && Delta(reports) < 0 then -Delta(reports) else 0)
  }

  /** No report takes back filled quantity. */
  ghost predicate NeverShrinks(reports: seq<Heard>) {
    |reports| > 0 ==> NeverShrinks(reports[..|reports| - 1]) && Delta(reports) >= 0
  }

  /** Filled quantity grows in updates only. */
  ghost predicate GrowsInUpdates(reports: seq<Heard>) {
    |reports| > 0 ==> GrowsInUpdates(reports[..|reports| - 1]) && (Delta(reports) > 0 ==> IsUpdate(reports))
  }

  /** The derived fills add up to the reported quantity, less what was first seen outside the stream, plus
      what updates took back. When no report shrinks that is at most what is reported, and all of it exactly
      when every bit was first seen in an update. */
  lemma {:induction false} QuantityTelescopes(reports: seq<Heard>)
    ensures TotalQty(Published(reports)) == FilledAt(reports) - Swallowed(reports) + TakenBack(reports)
    ensures NeverShrinks(reports) ==>
      && TotalQty(Published(reports)) <= FilledAt(reports)
      && (TotalQty(Published(reports)) == FilledAt(reports) <==> GrowsInUpdates(reports))
  {
    if |reports| > 0 {
      hide Synthesise;
      var before := reports[..|reports| - 1];
      QuantityTelescopes(before);
      if IsUpdate(reports) && Delta(reports) > 0 {
        var f := Synthesise(reports[|reports| - 1].at, Delta(reports), LastAt(before));
        SyntheticQty(reports[|reports| - 1].at, Delta(reports), LastAt(before));
        TotalsAppend(Published(before), f);
      }
    }
  }

  lemma SyntheticQty(o: Progressed, delta: int, previous: Option<Progressed>)
    requires delta > 0
    ensures Synthesise(o, delta, previous).qty == delta
  {
  }

  // ---------------------------------------------------------------- worth

  ghost function ReportedWorth(last: Option<Progressed>): real {
    if last.None? || last.value.filled == 0 || last.value.avg.None? then 0.0
    else last.value.avg.value * last.value.filled as real
  }

  ghost function WorthDelta(reports: seq<Heard>): real
    requires |reports| > 0
  {
    ReportedWorth(LastAt(reports)) - ReportedWorth(LastAt(reports[..|reports| - 1]))
  }

  /** Worth first seen outside the update stream. */
  ghost function SwallowedWorth(reports: seq<Heard>): real {
    if |reports| == 0 then 0.0
    else SwallowedWorth(reports[..|reports| - 1]) + (if IsUpdate(reports) then 0.0 else WorthDelta(reports))
  }

  /** Reports whose average price belongs to their filled quantity; updates never shrink it, and leave the
      average alone when they do not move it. */
  ghost predicate Coherent(reports: seq<Heard>) {
    |reports| > 0 ==>
      var before, o := reports[..|reports| - 1], reports[|reports| - 1].at;
      && Coherent(before)
      && (o.filled > 0 ==> Truthy(o.avg))
      && (IsUpdate(reports) ==> Delta(reports) >= 0)
      && (IsUpdate(reports) && Delta(reports) == 0 && o.filled > 0 ==> LastAt(before).Some? && o.avg == LastAt(before).value.avg)
  }

  /** No derived price had to be lifted to the floor. */
  ghost predicate FloorIdle(reports: seq<Heard>) {
    |reports| > 0 ==>
      var before, o := reports[..|reports| - 1], reports[|reports| - 1].at;
      FloorIdle(before) && (IsUpdate(reports) && Delta(reports) > 0 ==> RawPrice(o, Delta(reports), LastAt(before)) >= FLOOR)
  }

  ghost function RawWorth(o: Progressed, delta: int, previous: Option<Progressed>): real
    requires delta > 0
  {
    RawPrice(o, delta, previous) * delta as real
  }

  /** One more update: the derived fill is worth the change in reported worth, before the floor. */
  lemma StepWorth(previous: Option<Progressed>, o: Progressed)
    requires o.filled > FilledIn(previous) && Truthy(o.avg)
    requires FilledIn(previous) > 0 ==> Truthy(previous.value.avg)
    ensures RawWorth(o, o.filled - FilledIn(previous), previous) == ReportedWorth(Some(o)) - ReportedWorth(previous)
  {
    if previous.Some? && Truthy(previous.value.avg) {
      var p := previous.value;
      Quotient(o.avg.value * o.filled as real - p.avg.value * p.filled as real, (o.filled - p.filled) as real);
      assert p.filled == 0 ==> p.avg.value * p.filled as real == 0.0;
    }
  }

  lemma Quotient(x: real, d: real)
    requires d != 0.0
    ensures x / d * d == x
  {
  }

  lemma CoherentLast(reports: seq<Heard>)
    requires Coherent(reports)
    ensures FilledAt(reports) > 0 ==> Truthy(LastAt(reports).value.avg)
  {
  }

  /** The derived fills are worth at least the reported average times the reported quantity, less the worth
      first seen outside the stream, and exactly that if and only if the price floor never acted. */
  lemma {:induction false} WorthTelescopes(reports: seq<Heard>)
    requires Coherent(reports)
    ensures TotalWorth(Published(reports)) >= ReportedWorth(LastAt(reports)) - SwallowedWorth(reports)
    ensures TotalWorth(Published(reports)) == ReportedWorth(LastAt(reports)) - SwallowedWorth(reports) <==> FloorIdle(reports)
  {
    if |reports| > 0 {
      hide RawPrice, RawWorth, ReportedWorth, Worth, Synthesise;
      var before, o := reports[..|reports| - 1], reports[|reports| - 1].at;
      WorthTelescopes(before);
      CoherentLast(before);
      if IsUpdate(reports) && Delta(reports) > 0 {
        TotalsAppend(Published(before), Synthesise(o, Delta(reports), LastAt(before)));
        StepWorth(LastAt(before), o);
        FloorAdds(o, Delta(reports), LastAt(before));
      } else if IsUpdate(reports) {
        SameWorth(LastAt(before), o);
      }
    }
  }

  lemma FloorAdds(o: Progressed, delta: int, previous: Option<Progressed>)
    requires delta > 0
    ensures var w := Worth(Synthesise(o, delta, previous));
            w >= RawWorth(o, delta, previous) && (w == RawWorth(o, delta, previous) <==> RawPrice(o, delta, previous) >= FLOOR)
  {
    var raw := RawPrice(o, delta, previous);
    if raw < FLOOR {
      MulPositive(FLOOR - raw, delta as real);
    }
  }

  lemma SameWorth(previous: Option<Progressed>, o: Progressed)
    requires o.filled == FilledIn(previous) && (o.filled > 0 ==> previous.Some? && o.avg == previous.value.avg)
    ensures ReportedWorth(Some(o)) == ReportedWorth(previous)
  {
  }
}
