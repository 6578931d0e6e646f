/** The pre-trade no-reversal gate and the market-data gate. */
module RiskGate {
  import opened Numbers
  import opened Fills

  datatype GateVerdict =
    | Pass
    | InvalidQuantity
    | ReduceOnlyWithoutPosition
    | ReduceOnlySellAgainstShortOrFlat
    | ReduceOnlyBuyAgainstLongOrFlat
    | ReduceOnlyWouldReverse
    | SpotOvershort

  function CheckNoReversal(market: MarketType, side: Side, quantity: real, reduceOnly: bool, held: real): GateVerdict {
    if quantity <= 0.0 then InvalidQuantity
    else if reduceOnly then
      if held == 0.0 then ReduceOnlyWithoutPosition
      else if side == SELL then
        if held <= 0.0 then ReduceOnlySellAgainstShortOrFlat
        else if quantity > held then ReduceOnlyWouldReverse else Pass
      else
        if held >= 0.0 then ReduceOnlyBuyAgainstLongOrFlat
        else if quantity > -held then ReduceOnlyWouldReverse else Pass
    else if market == SPOT && side == SELL && quantity > held then SpotOvershort
    else Pass
  }

  function ReasonOf(v: GateVerdict): string {
    match v
    case Pass => "NO_REVERSAL_PASS"
    case InvalidQuantity => "INVALID_QUANTITY"
    case ReduceOnlyWithoutPosition => "REDUCE_ONLY_WITHOUT_POSITION"
    case ReduceOnlySellAgainstShortOrFlat => "REDUCE_ONLY_SELL_AGAINST_SHORT_OR_FLAT"
    case ReduceOnlyBuyAgainstLongOrFlat => "REDUCE_ONLY_BUY_AGAINST_LONG_OR_FLAT"
    case ReduceOnlyWouldReverse => "REDUCE_ONLY_WOULD_REVERSE"
    case SpotOvershort => "SPOT_OVERSHORT"
  }

  /** The position after an order of either side. */
  function Moved(held: real, side: Side, quantity: real): real {
    if side == BUY then held + quantity else held - quantity
  }

  /** What the gate admits, in terms of the position the order leads to: some quantity, a reduce-only order that
      takes exactly it off the position, and never a spot short. */
  lemma {:induction false} GatePassesIff(market: MarketType, side: Side, quantity: real, reduceOnly: bool, held: real)
    ensures CheckNoReversal(market, side, quantity, reduceOnly, held) == Pass <==>
              && quantity > 0.0
              && (reduceOnly ==> Abs(Moved(held, side, quantity)) == Abs(held) - quantity)
              && (market == SPOT && side == SELL && !reduceOnly ==> Moved(held, side, quantity) >= 0.0)
  {
  }

  datatype RiskAction = IncreaseLong | IncreaseShort | ReduceLong | ReduceShort

  function ClassifyOrderAction(side: Side, held: real): RiskAction {
    if side == BUY then if held >= 0.0 then IncreaseLong else ReduceShort
    else if held <= 0.0 then IncreaseShort else ReduceLong
  }

  /** `canAddRisk` is the verdict of the market-data checks, which read the clock. */
  function NewRiskBlocked(canAddRisk: bool, side: Side, held: real): bool {
    var action := ClassifyOrderAction(side, held);
    if action == ReduceLong || action == ReduceShort then false else !canAddRisk
  }

  // ---------------------------------------------------------------- orderly streams

  /** The fill neither reverses what is held nor is reduce-only on the growing side. */
  predicate OrderlyAt(held: real, f: Fill) {
    && f.quantity > 0.0
    && (held > 0.0 && f.side == SELL ==> f.quantity <= held)
    && (held < 0.0 && f.side == BUY ==> f.quantity <= -held)
    && (f.reduceOnly ==> (held > 0.0 && f.side == SELL) || (held < 0.0 && f.side == BUY))
  }

  ghost predicate Orderly(fills: seq<Fill>) {
    forall k :: 0 <= k < |fills| ==> OrderlyAt(NetQuantity(fills[..k]), fills[k])
  }

  /** Every fill passed the gate for its market, at the position held when it came. */
  ghost predicate Admitted(market: MarketType, fills: seq<Fill>) {
    forall k :: 0 <= k < |fills| ==>
      CheckNoReversal(market, fills[k].side, fills[k].quantity, fills[k].reduceOnly, NetQuantity(fills[..k])) == Pass
  }

  ghost predicate NeverShort(fills: seq<Fill>) {
    forall k :: 0 <= k <= |fills| ==> NetQuantity(fills[..k]) >= 0.0
  }

  /** A spot stream let through by the gate never oversells and is orderly. */
  lemma {:induction false} SpotGateKeepsOrder(fills: seq<Fill>, n: nat)
    requires n <= |fills| && Admitted(SPOT, fills)
    ensures NetQuantity(fills[..n]) >= 0.0
    ensures forall k :: 0 <= k < n ==> OrderlyAt(NetQuantity(fills[..k]), fills[k])
  {
    if n > 0 {
      SpotGateKeepsOrder(fills, n - 1);
      assert fills[..n] == fills[..n - 1] + [fills[n - 1]];
      TotalSnoc(SIGNED, fills[..n - 1], fills[n - 1]);
    }
  }

  /** Among long-only streams that never oversell, the orderly ones are those without a reduce-only buy. */
  lemma {:induction false} LongOnlyOrderlyIff(fills: seq<Fill>)
    requires Positive(fills) && NeverShort(fills)
    ensures Orderly(fills) <==> forall k :: 0 <= k < |fills| ==> !(fills[k].reduceOnly && fills[k].side == BUY)
  {
    forall k | 0 <= k < |fills|
      ensures OrderlyAt(NetQuantity(fills[..k]), fills[k]) <==> !(fills[k].reduceOnly && fills[k].side == BUY)
    {
      assert fills[..k + 1] == fills[..k] + [fills[k]];
      TotalSnoc(SIGNED, fills[..k], fills[k]);
      assert NetQuantity(fills[..k]) >= 0.0 && NetQuantity(fills[..k + 1]) >= 0.0;
    }
  }
}
