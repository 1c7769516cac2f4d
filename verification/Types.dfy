/** Domain records of trading/core/types.py that the other modules share. */
module Types {
  import opened Numbers

  datatype Side = Buy | Sell {
    function Sign(): int { if Buy? then 1 else -1 }
  }

  datatype Product = MIS | CNC | NRML

  /** The states of an order, at a broker and as reported to the agents. */
  datatype Status = Pending | TriggerPending | Open | Partial | Filled | Cancelled | Rejected {
    predicate Terminal() { Filled? || Cancelled? || Rejected? }

    predicate Working() { !Terminal() }
  }

  datatype Exchange = NSE | NFO | MCX

  datatype Kind = Equity | Index | Future | Opt

  /** What `parse_symbol`, the lot table and the multiplier table say about a symbol. */
  datatype Symbol = Symbol(name: string, exchange: Exchange, kind: Kind, multiplier: PosReal, lot: PosNat)

  /** A client order carries its tag; the broker's own square-off orders are numbered. */
  datatype OrderId = Tag(tag: string) | Auto(number: nat)

  datatype Fill = Fill(
    orderId: OrderId, symbol: Symbol, side: Side, qty: int, price: real, ts: int,
    product: Product, fee: real, multiplier: real)
  {
    function Signed(): int { side.Sign() * qty }
  }

  datatype Position = Position(
    symbol: Symbol, product: Product, qty: int, avg: real, realised: real, fees: real,
    last: Option<real>, multiplier: real)
  {
    function Unrealised(): real {
      if qty == 0 || last.None? then 0.0 else (last.value - avg) * qty as real * multiplier
    }

    function NetPnl(): real { realised + Unrealised() - fees }

    function MarketValue(): real {
      (if last.Some? then last.value else avg) * qty as real * multiplier
    }
  }

  type Key = (Symbol, Product)

  function KeyOf(f: Fill): Key { (f.symbol, f.product) }

  function PositionKey(p: Position): Key { (p.symbol, p.product) }

  function FlatPosition(symbol: Symbol, product: Product, multiplier: real): Position {
    Position(symbol, product, 0, 0.0, 0.0, 0.0, None, multiplier)
  }
}
