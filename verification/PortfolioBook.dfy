/** The engine's running view of positions and PnL (trading/agents/portfolio.py), fed by published fills. */
module PortfolioBook {
  import opened Numbers
  import opened Types
  import opened Ledger
  import opened BrokerSpec
  import opened BrokerLedger

  /** `positions` is an insertion-ordered dictionary; `marks` is `last_price`. */
  datatype Folio = Folio(
    starting: real, positions: seq<Position>, marks: map<Symbol, real>, realised: real, fees: real, seen: nat)

  function Opened(starting: real): Folio { Folio(starting, [], map[], 0.0, 0.0, 0) }

  /** `apply_fill`; a fill's multiplier overrides the position's unless it is zero. */
  function Record(p: Folio, f: Fill): Folio
    requires f.qty > 0
  {
    var i := IndexOf(p.positions, KeyOf(f));
    var held := if i < 0 then FlatPosition(f.symbol, f.product, f.multiplier) else p.positions[i];
    var pos := if f.multiplier != 0.0 then held.(multiplier := f.multiplier) else held;
    var booked := Booked(pos, f);
    p.(positions := if i < 0 then p.positions + [booked] else p.positions[i := booked],
       marks := p.marks[f.symbol := f.price],
       realised := p.realised + ApplyFill(pos, f.side, f.qty, f.price).1,
       fees := p.fees + f.fee, seen := p.seen + 1)
  }

  function MarkFolio(p: Folio, symbol: Symbol, price: real): Folio {
    p.(marks := p.marks[symbol := price], positions := MarkAll(p.positions, symbol, price))
  }

  ghost function Realised(): Position -> real { (p: Position) => p.realised }

  ghost function Fees(): Position -> real { (p: Position) => p.fees }

  ghost function Unrealised(): Position -> real { (p: Position) => p.Unrealised() }

  ghost function FolioEquity(p: Folio): real {
    p.starting + p.realised + SumBy(p.positions, Unrealised()) - p.fees
  }

  function Exposure(p: Folio): Position -> real {
    (pos: Position) =>
      if pos.qty == 0 then 0.0
      else AbsInt(pos.qty) as real * (if pos.symbol in p.marks then p.marks[pos.symbol] else pos.avg) * pos.multiplier
  }

  /** The totals are those of the positions, and every position carries its symbol's multiplier. */
  ghost predicate FolioOk(p: Folio) {
    && GoodPositions(p.positions)
    && p.realised == SumBy(p.positions, Realised())
    && p.fees == SumBy(p.positions, Fees())
  }

  lemma BookedTotals(pos: Position, f: Fill)
    requires f.qty > 0
    ensures Booked(pos, f).realised == pos.realised + ApplyFill(pos, f.side, f.qty, f.price).1
    ensures Booked(pos, f).fees == pos.fees + f.fee
    ensures PositionKey(Booked(pos, f)) == PositionKey(pos)
  {
    hide EffectOf;
  }

  lemma RecordKeepsOk(p: Folio, f: Fill)
    requires FolioOk(p) && f.qty > 0 && f.multiplier == f.symbol.multiplier
    ensures FolioOk(Record(p, f)) && Record(p, f).positions == Post(p.positions, f)
  {
    hide Booked, ApplyFill, SumBy;
    PostKeepsGood(p.positions, f);
    var i := IndexOf(p.positions, KeyOf(f));
    if i < 0 {
      var flat := FlatPosition(f.symbol, f.product, f.multiplier);
      BookedTotals(flat, f);
      SumAppend(p.positions, Booked(flat, f), Realised());
      SumAppend(p.positions, Booked(flat, f), Fees());
    } else {
      var pos := p.positions[i];
      assert pos in p.positions && pos.(multiplier := f.multiplier) == pos;
      BookedTotals(pos, f);
      SumUpdate(p.positions, i, Booked(pos, f), Realised());
      SumUpdate(p.positions, i, Booked(pos, f), Fees());
    }
  }

  lemma {:induction false} MarkKeepsSums(ps: seq<Position>, symbol: Symbol, price: real)
    ensures SumBy(MarkAll(ps, symbol, price), Realised()) == SumBy(ps, Realised())
    ensures SumBy(MarkAll(ps, symbol, price), Fees()) == SumBy(ps, Fees())
  {
    if |ps| > 0 {
      var n := |ps| - 1;
      MarkKeepsSums(ps[..n], symbol, price);
      assert MarkAll(ps, symbol, price)[..n] == MarkAll(ps[..n], symbol, price);
    }
  }

  lemma MarkKeepsOk(p: Folio, symbol: Symbol, price: real)
    requires FolioOk(p)
    ensures FolioOk(MarkFolio(p, symbol, price))
  {
    MarkKeepsSums(p.positions, symbol, price);
    var ps := MarkAll(p.positions, symbol, price);
    forall q | q in ps ensures q.multiplier == q.symbol.multiplier && q.last.Some? {
      var i :| 0 <= i < |ps| && ps[i] == q;
      assert p.positions[i] in p.positions;
    }
  }

  /** Equity computed from the three totals is starting equity plus each position's own net PnL. */
  lemma EquityIsNetPnl(p: Folio)
    requires FolioOk(p)
    ensures FolioEquity(p) == p.starting + SumBy(p.positions, NetPnl())
  {
    ghost var both := (q: Position) => q.realised + q.Unrealised();
    ghost var owed := (q: Position) => -q.fees;
    SumOfSums(p.positions, Realised(), Unrealised(), both);
    SumNegated(p.positions);
    SumOfSums(p.positions, both, owed, NetPnl());
    SumSame(p.positions, owed, (q: Position) => -q.fees);
  }

  lemma {:induction false} SumNegated(ps: seq<Position>)
    ensures SumBy(ps, (q: Position) => -q.fees) == -SumBy(ps, Fees())
  {
    if |ps| > 0 {
      SumNegated(ps[..|ps| - 1]);
    }
  }

  /** What a long position is worth, at the last price if there is one. */
  ghost function Long(p: Folio): Position -> real {
    (q: Position) => if q.qty > 0 then q.qty as real * HeldAt(p, q) * q.multiplier else 0.0
  }

  /** What it would take to buy a short position back. */
  ghost function Short(p: Folio): Position -> real {
    (q: Position) => if q.qty < 0 then (-q.qty) as real * HeldAt(p, q) * q.multiplier else 0.0
  }

  function HeldAt(p: Folio, q: Position): real { if q.symbol in p.marks then p.marks[q.symbol] else q.avg }

  /** Longs and shorts add to the gross exposure: neither is set off against the other. */
  lemma GrossIsLongPlusShort(p: Folio)
    ensures SumBy(p.positions, Exposure(p)) == SumBy(p.positions, Long(p)) + SumBy(p.positions, Short(p))
  {
    SumOfSums(p.positions, Long(p), Short(p), Exposure(p));
  }

  // ---------------------------------------------------------------- the object

  class Portfolio {
    const starting: real
    var positions: seq<Position>
    var marks: map<Symbol, real>
    var realised: real
    var fees: real
    var seen: nat

    function View(): Folio
      reads this
    {
      Folio(starting, positions, marks, realised, fees, seen)
    }

    constructor (starting: real)
      ensures View() == Opened(starting)
    {
      this.starting := starting;
      positions, marks, realised, fees, seen := [], map[], 0.0, 0.0, 0;
    }

    method ApplyFill(f: Fill)
      requires f.qty > 0
      modifies this
      ensures View() == Record(old(View()), f)
    {
      var i := IndexOf(positions, KeyOf(f));
      if i < 0 {
        i := |positions|;
        positions := positions + [FlatPosition(f.symbol, f.product, f.multiplier)];
      }
      var pos := positions[i];
      if f.multiplier != 0.0 {
        pos := pos.(multiplier := f.multiplier);
      }
      var (applied, gained) := Ledger.ApplyFill(pos, f.side, f.qty, f.price);
      positions := positions[i := applied.(fees := applied.fees + f.fee, last := Some(f.price))];
      marks := marks[f.symbol := f.price];
      realised := realised + gained;
      fees := fees + f.fee;
      seen := seen + 1;
      hide EffectOf;
      assert positions == Record(old(View()), f).positions;
    }

    method Mark(symbol: Symbol, price: real)
      modifies this
      ensures View() == MarkFolio(old(View()), symbol, price)
    {
      marks := marks[symbol := price];
      var k := 0;
      while k < |positions|
        invariant k <= |positions| == |old(positions)|
        invariant forall j :: 0 <= j < |positions| ==>
          positions[j] == if j < k then MarkPosition(old(positions)[j], symbol, price) else old(positions)[j]
        invariant marks == old(marks)[symbol := price]
        invariant View() == old(View()).(marks := marks, positions := positions)
      {
        if positions[k].symbol == symbol {
          positions := positions[k := positions[k].(last := Some(price))];
        }
        k := k + 1;
      }
      assert positions == MarkAll(old(positions), symbol, price);
    }

    method UnrealisedPnl() returns (total: real)
      ensures total == SumBy(positions, Unrealised())
    {
      total := 0.0;
      for k := 0 to |positions|
        invariant total == SumBy(positions[..k], Unrealised())
      {
        assert positions[..k + 1][..k] == positions[..k];
        total := total + positions[k].Unrealised();
      }
      assert positions[..|positions|] == positions;
    }

    method Equity() returns (equity: real)
      ensures equity == FolioEquity(View())
    {
      var unrealised := UnrealisedPnl();
      equity := starting + (realised + unrealised - fees);
    }

    method GrossExposure() returns (total: real)
      ensures total == SumBy(positions, Exposure(View()))
    {
      total := 0.0;
      for k := 0 to |positions|
        invariant total == SumBy(positions[..k], Exposure(View()))
      {
        assert positions[..k + 1][..k] == positions[..k];
        if positions[k].qty != 0 {
          var pos := positions[k];
          var price := if pos.symbol in marks then marks[pos.symbol] else pos.avg;
          total := total + AbsInt(pos.qty) as real * price * pos.multiplier;
        }
      }
      assert positions[..|positions|] == positions;
    }
  }
}
