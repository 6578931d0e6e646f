/** The asset account of the journal against the cost basis of the replay, for any ledger of generated journals. */
module AssetAccount {
  import opened Wrappers
  import opened Fills
  import opened Journal
  import opened Projection
  import opened Conservation
  import opened Settlement

  ghost predicate TradeOf(t: Transaction, quote: string, fee: real, released: Option<real>)
    requires t.meta.TradeMeta?
  {
    Postings(t) == TradePostings(t.meta.side, t.meta.symbol, quote, t.meta.price, t.meta.quantity, fee, released)
  }

  /** A trade carries a generated journal, with whatever released cost; nothing else touches an asset account. */
  ghost predicate Generated(t: Transaction) {
    if t.entryType == TRADE then t.meta.TradeMeta? && exists quote, fee, released :: TradeOf(t, quote, fee, released)
    else forall i :: 0 <= i < |Postings(t)| ==> !Postings(t)[i].account.PositionAsset?
  }

  ghost predicate AllGenerated(txns: seq<Transaction>) {
    forall t :: t in txns ==> Generated(t)
  }

  /** A sell takes out of the asset account the average cost that replay releases. */
  ghost predicate PostsReleasedCost(s: Snapshot, t: Transaction) {
    t.entryType == TRADE && t.meta.TradeMeta? && t.meta.side == SELL ==>
      AssetMoved(Postings(t), t.meta.symbol) == -Release(s.PositionOf(t.meta.symbol), t.meta.quantity)
  }

  ghost function State(initial: map<string, real>, txns: seq<Transaction>, n: nat): Snapshot
    requires n <= |txns| && Replay(Initial(initial), txns).Ok?
  {
    PrefixReplays(initial, txns, n);
    Replay(Initial(initial), txns[..n]).value
  }

  lemma {:induction false} PrefixReplays(initial: map<string, real>, txns: seq<Transaction>, n: nat)
    requires n <= |txns| && Replay(Initial(initial), txns).Ok?
    ensures Replay(Initial(initial), txns[..n]).Ok?
  {
    assert txns == txns[..n] + txns[n..];
    ReplayAppend(Initial(initial), txns[..n], txns[n..]);
  }

  lemma {:induction false} StateStep(initial: map<string, real>, txns: seq<Transaction>, n: nat)
    requires n < |txns| && Replay(Initial(initial), txns).Ok?
    ensures Apply(State(initial, txns, n), txns[n]) == (State(initial, txns, n + 1), None)
  {
    hide Apply;
    PrefixReplays(initial, txns, n);
    PrefixReplays(initial, txns, n + 1);
    assert txns[..n + 1] == txns[..n] + [txns[n]];
    ReplayAppend(Initial(initial), txns[..n], [txns[n]]);
    assert [txns[n]][1..] == [];
  }

  lemma {:induction false} StateIsSound(initial: map<string, real>, txns: seq<Transaction>, n: nat)
    requires n <= |txns| && Replay(Initial(initial), txns).Ok? && AllSane(txns)
    ensures AllSound(State(initial, txns, n))
  {
    assert forall t :: t in txns[..n] ==> t in txns;
    ReplayKeepsSound(Initial(initial), txns[..n]);
    PrefixReplays(initial, txns, n);
  }

  /** What a transaction adds to the cost basis of a symbol when it replays. */
  function CostMoved(s: Snapshot, t: Transaction, symbol: string): real {
    if t.entryType != TRADE || !t.meta.TradeMeta? || t.meta.symbol != symbol then 0.0
    else if t.meta.side == BUY then t.meta.price * t.meta.quantity
    else -Release(s.PositionOf(symbol), t.meta.quantity)
  }

  lemma {:induction false} ReplayMovesCost(s: Snapshot, t: Transaction, symbol: string)
    requires AllSound(s) && Sane(t) && Apply(s, t).1.None?
    ensures Apply(s, t).0.PositionOf(symbol).costBasis == s.PositionOf(symbol).costBasis + CostMoved(s, t, symbol)
  {
    hide PostAll;
    hide Sold;
    PostKeepsTheRest(s, Postings(t));
    if t.entryType == TRADE && t.meta.TradeMeta? && t.meta.symbol == symbol && t.meta.side == SELL {
      SellReleasesExactly(s.PositionOf(symbol), t.meta.quantity, t.meta.price);
    }
  }

  lemma {:induction false} JournalMovesCost(s: Snapshot, t: Transaction, symbol: string)
    requires Generated(t)
    ensures t.meta.TradeMeta? && symbol == t.meta.symbol && !PostsReleasedCost(s, t) ==>
              AssetMoved(Postings(t), symbol) != CostMoved(s, t, symbol)
    ensures PostsReleasedCost(s, t) ==> AssetMoved(Postings(t), symbol) == CostMoved(s, t, symbol)
  {
    if t.entryType == TRADE {
      var quote, fee, released :| TradeOf(t, quote, fee, released);
      TradePostingsAsset(t.meta.side, t.meta.symbol, quote, t.meta.price, t.meta.quantity, fee, released, symbol);
      TradePostingsAsset(t.meta.side, t.meta.symbol, quote, t.meta.price, t.meta.quantity, fee, released, t.meta.symbol);
    } else {
      AssetUntouched(Postings(t), symbol);
    }
  }

  ghost predicate MirrorsAt(initial: map<string, real>, txns: seq<Transaction>, n: nat, symbol: string)
    requires n <= |txns| && Replay(Initial(initial), txns).Ok?
  {
    AssetBalance(txns[..n], symbol) == State(initial, txns, n).PositionOf(symbol).costBasis
  }

  /** The balance of the asset account and the cost basis step together, or not at all. */
  lemma {:induction false} MirrorStep(initial: map<string, real>, txns: seq<Transaction>, n: nat, symbol: string)
    requires n < |txns| && Replay(Initial(initial), txns).Ok? && AllSane(txns) && AllGenerated(txns)
    requires MirrorsAt(initial, txns, n, symbol)
    ensures MirrorsAt(initial, txns, n + 1, symbol)
       <==> AssetMoved(Postings(txns[n]), symbol) == CostMoved(State(initial, txns, n), txns[n], symbol)
  {
    hide State;
    hide Apply;
    var s, t := State(initial, txns, n), txns[n];
    StateStep(initial, txns, n);
    StateIsSound(initial, txns, n);
    assert t in txns;
    ReplayMovesCost(s, t, symbol);
    AssetBalanceSnoc(txns[..n], t, symbol);
    assert txns[..n + 1] == txns[..n] + [t];
  }

  ghost predicate PostsAt(initial: map<string, real>, txns: seq<Transaction>, n: nat)
    requires n < |txns| && Replay(Initial(initial), txns).Ok?
  {
    PostsReleasedCost(State(initial, txns, n), txns[n])
  }

  ghost predicate MirrorsUpTo(initial: map<string, real>, txns: seq<Transaction>, n: nat)
    requires n <= |txns| && Replay(Initial(initial), txns).Ok?
  {
    forall k, symbol :: 0 <= k <= n ==> MirrorsAt(initial, txns, k, symbol)
  }

  lemma {:induction false} MirrorsUpToStep(initial: map<string, real>, txns: seq<Transaction>, n: nat)
    requires n < |txns| && Replay(Initial(initial), txns).Ok? && AllSane(txns) && AllGenerated(txns)
    requires MirrorsUpTo(initial, txns, n)
    ensures MirrorsUpTo(initial, txns, n + 1) <==> PostsAt(initial, txns, n)
  {
    hide MirrorsAt;
    hide PostsReleasedCost;
    var s, t := State(initial, txns, n), txns[n];
    assert t in txns;
    var next := n + 1;
    forall symbol
      ensures PostsAt(initial, txns, n) ==> MirrorsAt(initial, txns, next, symbol)
    {
      assert MirrorsAt(initial, txns, n, symbol);
      MirrorStep(initial, txns, n, symbol);
      JournalMovesCost(s, t, symbol);
    }
    if MirrorsUpTo(initial, txns, n + 1) && !PostsAt(initial, txns, n) {
      OnlySellsCanMiss(s, t);
      assert MirrorsAt(initial, txns, n, t.meta.symbol) && MirrorsAt(initial, txns, n + 1, t.meta.symbol);
      MirrorStep(initial, txns, n, t.meta.symbol);
      JournalMovesCost(s, t, t.meta.symbol);
      assert false;
    }
  }

  lemma {:induction false} OnlySellsCanMiss(s: Snapshot, t: Transaction)
    requires !PostsReleasedCost(s, t)
    ensures t.meta.TradeMeta?
  {
  }

  lemma {:induction false} StartMirrors(initial: map<string, real>, txns: seq<Transaction>)
    requires Replay(Initial(initial), txns).Ok?
    ensures MirrorsUpTo(initial, txns, 0)
  {
    assert txns[..0] == [];
    forall symbol
      ensures MirrorsAt(initial, txns, 0, symbol)
    {
    }
  }

  lemma {:induction false} MirrorsIffPosts(initial: map<string, real>, txns: seq<Transaction>, n: nat)
    requires n <= |txns| && Replay(Initial(initial), txns).Ok? && AllSane(txns) && AllGenerated(txns)
    ensures MirrorsUpTo(initial, txns, n) <==> forall k :: 0 <= k < n ==> PostsAt(initial, txns, k)
  {
    hide PostsAt;
    hide MirrorsAt;
    if n == 0 {
      StartMirrors(initial, txns);
    } else {
      MirrorsIffPosts(initial, txns, n - 1);
      if MirrorsUpTo(initial, txns, n - 1) {
        MirrorsUpToStep(initial, txns, n - 1);
      }
    }
  }

  /** For every ledger of generated journals that replays: the net POSITION_ASSET balance of every symbol is its
      replayed cost basis at every prefix if and only if every sell posted the average cost that replay releases. */
  lemma {:induction false} AssetBalanceIsCostBasisIff(initial: map<string, real>, txns: seq<Transaction>)
    requires Replay(Initial(initial), txns).Ok? && AllSane(txns) && AllGenerated(txns)
    ensures (forall n, symbol :: 0 <= n <= |txns| ==> MirrorsAt(initial, txns, n, symbol))
       <==> (forall k :: 0 <= k < |txns| ==> PostsAt(initial, txns, k))
  {
    MirrorsIffPosts(initial, txns, |txns|);
  }
}
