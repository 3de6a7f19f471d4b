// Settlement pays the right people: what each user owns of each asset, available and
// locked together, is what they deposited plus and minus what the trade table says they
// bought and sold.

module Payments {
  import opened Models
  import opened Sums
  import opened Ledger
  import opened OrderBook
  import opened Matching
  import opened Settlement
  import opened Exchange
  import opened Validity
  import opened ReadTimes
  import opened Runs

  function Owned(f: Funds, k: Slot): real { AccountAt(f, k).available + AccountAt(f, k).locked }

  // What a trade means for one slot: on the seller's side, ...
  function SellerPart(k: Slot, t: Trade, cost: real): real {
    match k
    case Cash(u) => if t.seller == u then cost else 0.0
    case Holding(u, a) => if t.seller == u && t.base == a then -t.quantity else 0.0
  }

  // ... and on the buyer's.
  function BuyerPart(k: Slot, t: Trade, cost: real): real {
    match k
    case Cash(u) => if t.buyer == u then -cost else 0.0
    case Holding(u, a) => if t.buyer == u && t.base == a then t.quantity else 0.0
  }

  function MakerPart(taker: Side, k: Slot, t: Trade, cost: real): real {
    if taker == Buy then SellerPart(k, t, cost) else BuyerPart(k, t, cost)
  }

  function MakerTerm(taker: Side, k: Slot): Trade -> real {
    (t: Trade) => MakerPart(taker, k, t, t.price * t.quantity)
  }

  function NetTerm(k: Slot): Trade -> real {
    (t: Trade) => SellerPart(k, t, t.price * t.quantity) + BuyerPart(k, t, t.price * t.quantity)
  }

  function Net(trades: seq<Trade>, k: Slot): real { Total(trades, NetTerm(k)) }

  // --- One settlement ---------------------------------------------------------------------

  lemma MakerPays(f: Funds, taker: Side, t: Trade, cost: real, k: Slot)
    requires t.quantity > 0.0 && cost > 0.0 && Cash(t.seller) in f.rows && SettleMaker(f, taker, t, cost).Ok?
    ensures Owned(SettleMaker(f, taker, t, cost).value, k) == Owned(f, k) + MakerPart(taker, k, t, cost)
  {
  }

  lemma {:induction false} MakersPay(f: Funds, taker: Side, base: Asset, trades: seq<Trade>, k: Slot)
    requires Sound(f) && Settleable(f, base, trades) && SettleMakers(f, taker, trades).Ok?
    ensures Owned(SettleMakers(f, taker, trades).value, k) == Owned(f, k) + Total(trades, MakerTerm(taker, k))
    decreases |trades|
  {
    if trades != [] {
      var t := trades[0];
      assert t in trades;
      var cost := FirstTrade(f, taker, trades);
      CostPositive(t);
      MakerHeld(f, taker, t, cost, CashColumn);
      MakerPays(f, taker, t, cost, k);
      assert forall x :: x in trades[1..] ==> x in trades;
      MakersPay(SettleMaker(f, taker, t, cost).value, taker, base, trades[1..], k);
      assert MakerTerm(taker, k)(t) == MakerPart(taker, k, t, cost);
    }
  }

  // What the taker gets and gives in all.
  function TakerShare(side: Side, u: UserId, base: Asset, volume: real, cost: real, k: Slot): real {
    if k == Cash(u) then (if side == Buy then -cost else cost)
    else if k == Holding(u, base) then (if side == Buy then volume else -volume)
    else 0.0
  }

  lemma TakerPays(f: Funds, o: Order, pair: Pair, volume: real, cost: real, k: Slot)
    requires Cash(o.userId) in f.rows && volume >= 0.0 && cost >= 0.0 && SettleTaker(f, o, pair, volume, cost).Ok?
    ensures Owned(SettleTaker(f, o, pair, volume, cost).value, k)
         == Owned(f, k) + TakerShare(o.side, o.userId, pair.base, volume, cost, k)
  {
  }

  // Trades that all have the same taker.
  ghost predicate TakenBy(side: Side, u: UserId, base: Asset, trades: seq<Trade>) {
    forall t :: t in trades ==> t.base == base && (if side == Buy then t.buyer else t.seller) == u
  }

  lemma {:induction false} NetIsBothSides(side: Side, u: UserId, base: Asset, trades: seq<Trade>, k: Slot)
    requires TakenBy(side, u, base, trades)
    ensures Net(trades, k)
         == Total(trades, MakerTerm(side, k)) + TakerShare(side, u, base, Volume(trades), Cost(trades), k)
  {
    if trades != [] {
      var t := trades[0];
      assert t in trades;
      assert forall x :: x in trades[1..] ==> x in trades;
      NetIsBothSides(side, u, base, trades[1..], k);
      var cost := FirstCost(trades);
      OneTradeBothSides(side, u, base, t, cost, k);
      assert NetTerm(k)(t) == SellerPart(k, t, cost) + BuyerPart(k, t, cost);
      assert MakerTerm(side, k)(t) == MakerPart(side, k, t, cost);
      SharesAdd(side, u, base, t.quantity, cost, Volume(trades[1..]), Cost(trades[1..]), k);
    } else {
      assert Volume(trades) == 0.0 && Cost(trades) == 0.0;
    }
  }

  lemma SharesAdd(side: Side, u: UserId, base: Asset, q: real, c: real, volume: real, cost: real, k: Slot)
    ensures TakerShare(side, u, base, q + volume, c + cost, k)
         == TakerShare(side, u, base, q, c, k) + TakerShare(side, u, base, volume, cost, k)
  {
  }

  lemma OneTradeBothSides(side: Side, u: UserId, base: Asset, t: Trade, cost: real, k: Slot)
    requires t.base == base && (if side == Buy then t.buyer else t.seller) == u
    ensures SellerPart(k, t, cost) + BuyerPart(k, t, cost)
         == MakerPart(side, k, t, cost) + TakerShare(side, u, base, t.quantity, cost, k)
  {
  }

  // The settlement moves to and from each slot exactly what its trades say.
  lemma SettlementPays(f: Funds, o: Order, pair: Pair, trades: seq<Trade>, k: Slot)
    requires Sound(f) && Settleable(f, pair.base, trades) && Cash(o.userId) in f.rows
    requires TakenBy(o.side, o.userId, pair.base, trades) && Settle(f, o, pair, trades).Ok?
    ensures Owned(Settle(f, o, pair, trades).value, k) == Owned(f, k) + Net(trades, k)
  {
    TotalsPositive(f, pair.base, trades);
    MakersPay(f, o.side, pair.base, trades, k);
    MakersHeld(f, o.side, pair.base, trades, CashColumn);
    TakerPays(SettleMakers(f, o.side, trades).value, o, pair, Volume(trades), Cost(trades), k);
    NetIsBothSides(o.side, o.userId, pair.base, trades, k);
  }

  // --- One step -------------------------------------------------------------------------------

  lemma InsertedTakenBy(mode: ReadMode, o: Order, pending: map<OrderId, Order>, view: seq<Order>, pair: Pair,
                        r: OrderResult)
    requires Sweeps(mode, TakerOf(o), view, r.updated, r.trades, pair) && o.id in pending && pending[o.id] == o
    ensures TakenBy(o.side, o.userId, pair.base, AllJoined(pending, r.trades))
  {
    SweepTrades(mode, TakerOf(o), view, r.updated, r.trades, pair);
    forall x | x in AllJoined(pending, r.trades)
      ensures x.base == pair.base && (if o.side == Buy then x.buyer else x.seller) == o.userId
    {
      JoinedMember(pending, r.trades, x);
      var y :| y in r.trades && x == Joined(pending, y);
      var i :| 0 <= i < |view| && IsTradeOn(TakerOf(o), view[i], y, pair);
    }
  }

  lemma LockKeepsOwned(f: Funds, u: UserId, a: Asset, amount: real, k: Slot)
    requires LockBalance(f, u, a, amount).Ok?
    ensures Owned(LockBalance(f, u, a, amount).value, k) == Owned(f, k)
  {
  }

  lemma CreatePays(mode: ReadMode, s: State, user: UserId, req: Request, id: OrderId, now: int, t: State, k: Slot)
    requires Valid(s) && LiveBook(s.book) && Create(mode, Decoded, s, user, req, id, now) == Ok(t)
    ensures s.trades <= t.trades
    ensures Owned(t.funds, k) == Owned(s.funds, k) + Net(t.trades[|s.trades|..], k)
  {
    var p := CreateStages(mode, s, user, req, id, now);
    StagesPay(mode, s, user, req, id, now, t, p, k);
    assert t.trades[|s.trades|..] == p.inserted;
  }

  lemma StagesPay(mode: ReadMode, s: State, user: UserId, req: Request, id: OrderId, now: int, t: State, p: Stages,
                  k: Slot)
    requires Valid(s) && Created(mode, s, user, req, id, now, t, p)
    ensures Owned(t.funds, k) == Owned(s.funds, k) + Net(p.inserted, k)
  {
    LockKeepsOwned(s.funds, user, LockAsset(s.markets[p.o.marketId], p.o.side), LockAmount(Effective(req)), k);
    StagesSettleable(mode, s, user, req, id, now, t, p);
    MatchFacts(mode, p.o, p.view, p.pair);
    InsertedTakenBy(mode, p.o, p.pending, p.view, p.pair, p.result);
    SettlementPays(p.locked, p.result.incoming, p.pair, p.inserted, k);
  }

  // What a step brings into a slot from outside.
  function Deposited(s: State, op: Op, k: Slot): real {
    match op
    case DepositOp(user, asset, amount) =>
      if amount > 0.0 && Cash(user) in s.funds.rows
        && (asset == USD || asset in s.funds.assets) && k == SlotFor(user, asset)
      then amount
      else 0.0
    case _ => 0.0
  }

  lemma OtherStepPays(mode: ReadMode, s: State, op: Op, k: Slot)
    requires LiveBook(s.book) && !op.CreateOp?
    ensures Step(mode, Decoded, s, op).trades == s.trades
    ensures Owned(Step(mode, Decoded, s, op).funds, k) == Owned(s.funds, k) + Deposited(s, op, k)
  {
  }

  lemma StepPays(mode: ReadMode, s: State, op: Op, k: Slot)
    requires Valid(s) && LiveBook(s.book)
    ensures var t := Step(mode, Decoded, s, op);
      Owned(t.funds, k) - Net(t.trades, k) == Owned(s.funds, k) - Net(s.trades, k) + Deposited(s, op, k)
  {
    if op.CreateOp? {
      var r := Create(mode, Decoded, s, op.user, op.req, op.id, op.now);
      if r.Ok? {
        CreatePays(mode, s, op.user, op.req, op.id, op.now, r.value, k);
        assert r.value.trades == s.trades + r.value.trades[|s.trades|..];
        TotalAppend(s.trades, r.value.trades[|s.trades|..], NetTerm(k));
      }
    } else {
      OtherStepPays(mode, s, op, k);
    }
  }

  // --- Runs ---------------------------------------------------------------------------------------

  lemma AnyStepPays(mode: ReadMode, times: TimeRead, s: State, op: Op, k: Slot)
    requires Consistent(s) && LiveBook(s.book)
    ensures var t := Step(mode, times, s, op);
      Owned(t.funds, k) - Net(t.trades, k) == Owned(s.funds, k) - Net(s.trades, k) + Deposited(s, op, k)
  {
    StepAlike(mode, times, s, op);
    StepPays(mode, Stored(s), op, k);
    assert Deposited(Stored(s), op, k) == Deposited(s, op, k);
  }

  function Deposits(mode: ReadMode, times: TimeRead, s: State, ops: seq<Op>, k: Slot): real
    requires Consistent(s)
    decreases |ops|
  {
    if ops == [] then 0.0
    else
      StepConsistent(mode, times, s, ops[0]);
      Deposited(s, ops[0], k) + Deposits(mode, times, Step(mode, times, s, ops[0]), ops[1..], k)
  }

  // Over any run, in either way of reading, what a user owns in a slot changes by what
  // they deposited there and by what the trade table says they bought and sold, at the
  // trades' own prices.
  lemma {:induction false} RunPays(mode: ReadMode, times: TimeRead, s: State, ops: seq<Op>, k: Slot)
    requires Consistent(s)
    ensures var t := Run(mode, times, s, ops);
      Owned(t.funds, k) - Net(t.trades, k) == Owned(s.funds, k) - Net(s.trades, k) + Deposits(mode, times, s, ops, k)
    decreases |ops|
  {
    if ops != [] {
      StepConsistent(mode, times, s, ops[0]);
      AnyStepPays(mode, times, s, ops[0], k);
      RunPays(mode, times, Step(mode, times, s, ops[0]), ops[1..], k);
    }
  }
}
