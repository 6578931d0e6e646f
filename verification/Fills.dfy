/** Exchange fills and the sums that every accounting module takes over them. */
module Fills {
  import opened Wrappers

  datatype Side = BUY | SELL
  datatype MarketType = SPOT | PERPETUAL

  datatype Fill = Fill(
    fillId: string,
    orderId: string,
    symbol: string,
    side: Side,
    price: real,
    quantity: real,
    fee: real,
    feeCurrency: string,
    marketType: MarketType,
    reduceOnly: bool,
    timestamp: Option<int>,
    strategyId: string)

  function Opposite(side: Side): Side {
    if side == BUY then SELL else BUY
  }

  /** BUY adds quantity, SELL removes it. */
  function Signed(f: Fill): real {
    if f.side == BUY then f.quantity else -f.quantity
  }

  // The quantities that are summed over fills.
  const QUANTITY: Fill -> real := (f: Fill) => f.quantity
  const NOTIONAL: Fill -> real := (f: Fill) => f.price * f.quantity
  const FEES: Fill -> real := (f: Fill) => f.fee
  const SIGNED: Fill -> real := (f: Fill) => Signed(f)
  const CASHFLOW: Fill -> real := (f: Fill) => -(f.price * Signed(f))
  const BOUGHT: Fill -> real := (f: Fill) => if f.side == BUY then f.quantity else 0.0
  const SOLD: Fill -> real := (f: Fill) => if f.side == SELL then f.quantity else 0.0

  function Total(g: Fill -> real, fills: seq<Fill>): real {
    if fills == [] then 0.0 else g(fills[0]) + Total(g, fills[1..])
  }

  /** The signed quantity still held after `fills`. */
  function NetQuantity(fills: seq<Fill>): real {
    Total(SIGNED, fills)
  }

  /** The cash the fills brought in, fees aside: sells minus buys. */
  function NetCash(fills: seq<Fill>): real {
    Total(CASHFLOW, fills)
  }

  ghost predicate Positive(fills: seq<Fill>) {
    forall i :: 0 <= i < |fills| ==> fills[i].quantity > 0.0
  }

  lemma {:induction false} TotalAppend(g: Fill -> real, a: seq<Fill>, b: seq<Fill>)
    ensures Total(g, a + b) == Total(g, a) + Total(g, b)
  {
    if a == [] {
      assert a + b == b;
    } else {
      assert (a + b)[1..] == a[1..] + b;
      TotalAppend(g, a[1..], b);
    }
  }

  lemma {:induction false} TotalSnoc(g: Fill -> real, a: seq<Fill>, f: Fill)
    ensures Total(g, a + [f]) == Total(g, a) + g(f)
  {
    TotalAppend(g, a, [f]);
  }

  lemma {:induction false} BoughtAndSold(fills: seq<Fill>)
    ensures Total(QUANTITY, fills) == Total(BOUGHT, fills) + Total(SOLD, fills)
    ensures Total(SIGNED, fills) == Total(BOUGHT, fills) - Total(SOLD, fills)
  {
    if fills != [] {
      BoughtAndSold(fills[1..]);
    }
  }

  /** The fills of one symbol, in order. */
  function Only(symbol: string, fills: seq<Fill>): (r: seq<Fill>)
    ensures forall f :: f in r <==> f in fills && f.symbol == symbol
  {
    if fills == [] then []
    else if fills[0].symbol == symbol then [fills[0]] + Only(symbol, fills[1..])
    else Only(symbol, fills[1..])
  }

  lemma {:induction false} OnlyAppend(symbol: string, a: seq<Fill>, b: seq<Fill>)
    ensures Only(symbol, a + b) == Only(symbol, a) + Only(symbol, b)
  {
    if a == [] {
      assert a + b == b;
    } else {
      assert (a + b)[1..] == a[1..] + b;
      OnlyAppend(symbol, a[1..], b);
    }
  }
}
