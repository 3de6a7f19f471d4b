// The exchange never gets stuck and never loses track of a lock: a creation fails only for
// a reason that can be checked before it, and over any run read fresh what is locked is
// exactly what resting orders are owed plus the price improvement kept back.

module Solvency {
  import opened Models
  import opened Sums
  import opened Ledger
  import opened OrderBook
  import opened Matching
  import opened Settlement
  import opened Coverage
  import opened Exchange
  import opened Validity
  import opened ReadTimes
  import opened Runs
  import opened LockCoverage
  import opened Demands
  import opened Requests
  import opened Creations

  // --- Cancelling and depositing -------------------------------------------------------------

  lemma RestingIsOwed(s: State, id: OrderId)
    requires Valid(s) && id in s.orders && s.orders[id].Resting()
    ensures CancelAmount(s.orders[id]) > 0.0
  {
    var o := s.orders[id];
    assert RowOk(s.markets, id, o);
    CheaperThanWhole(o.price, o.Remaining(), o.Remaining());
  }

  // The term of one row is its cancel amount, in its cancel slot.
  lemma OneBaseTerm(markets: Markets, id: OrderId, o: Order, u: UserId, a: Asset)
    requires o.marketId in markets
    ensures BaseTerm(markets, u, a)(id, o)
         == if o.Resting() && CancelSlot(markets, o) == Holding(u, a) then CancelAmount(o) else 0.0
  {
  }

  lemma OneCashTerm(markets: Markets, id: OrderId, o: Order, u: UserId)
    requires o.marketId in markets
    ensures CashTerm(u)(id, o) == if o.Resting() && CancelSlot(markets, o) == Cash(u) then CancelAmount(o) else 0.0
  {
  }

  // What a cancellation takes off the terms of its order: all of it, if it rested.
  lemma CancelBaseTerms(s: State, id: OrderId, o: Order, u: UserId, a: Asset)
    requires id in s.orders && o == s.orders[id].(status := Cancelled) && o.marketId in s.markets
    ensures Sum(s.orders[id := o], BaseTerm(s.markets, u, a)) == Sum(s.orders, BaseTerm(s.markets, u, a))
      - (if s.orders[id].Resting() && CancelSlot(s.markets, o) == Holding(u, a)
         then CancelAmount(s.orders[id]) else 0.0)
  {
    SumUpdate(s.orders, id, o, BaseTerm(s.markets, u, a));
    OneBaseTerm(s.markets, id, s.orders[id], u, a);
  }

  lemma CancelCashTerms(s: State, id: OrderId, o: Order, u: UserId, k: Slot, amount: real)
    requires id in s.orders && o == s.orders[id].(status := Cancelled) && o.marketId in s.markets
    requires k == CancelSlot(s.markets, o) && amount == CancelAmount(s.orders[id])
    ensures Sum(s.orders[id := o], CashTerm(u)) == Sum(s.orders, CashTerm(u))
      - (if s.orders[id].Resting() && k == Cash(u) then amount else 0.0)
  {
    SumUpdate(s.orders, id, o, CashTerm(u));
    OneCashTerm(s.markets, id, s.orders[id], u);
    OneCashTerm(s.markets, id, o, u);
  }

  // The locked balance covers what a resting sell is owed, ...
  lemma RestingSellIsCovered(s: State, id: OrderId)
    requires Valid(s) && Covered(s) && id in s.orders && s.orders[id].Resting() && s.orders[id].marketId in s.markets
    requires s.orders[id].side == Sell
    ensures LockedAt(s.funds, CancelSlot(s.markets, s.orders[id])) >= CancelAmount(s.orders[id])
  {
    ValidIsLive(s);
    BaseCoversOrder(s.markets, s.funds, s.orders, id, s.markets[s.orders[id].marketId].base);
  }

  // ... or a resting buy, ...
  lemma RestingBuyIsCovered(s: State, id: OrderId)
    requires Valid(s) && Covered(s) && id in s.orders && s.orders[id].Resting() && s.orders[id].marketId in s.markets
    requires s.orders[id].side == Buy
    ensures LockedAt(s.funds, CancelSlot(s.markets, s.orders[id])) >= CancelAmount(s.orders[id])
  {
    ValidIsLive(s);
    KeptNonNegative(s.orders, s.trades, s.orders[id].userId);
    var cost := BuyIsCovered(s.funds, s.orders, KeptBack(s.orders, s.trades), id);
  }

  lemma BuyIsCovered(f: Funds, orders: map<OrderId, Order>, kept: UserId -> real, id: OrderId) returns (cost: real)
    requires RestingRows(orders) && CashCovered(f, orders, kept)
    requires id in orders && orders[id].Resting() && orders[id].side == Buy && kept(orders[id].userId) >= 0.0
    ensures cost == CancelAmount(orders[id]) && LockedAt(f, Cash(orders[id].userId)) >= cost
  {
    cost := CancelAmount(orders[id]);
    CashCoversOrder(f, orders, kept, id);
  }

  lemma CancelledOwesSame(markets: Markets, o: Order)
    requires o.marketId in markets
    ensures CancelAmount(o.(status := Cancelled)) == CancelAmount(o)
    ensures CancelSlot(markets, o.(status := Cancelled)) == CancelSlot(markets, o)
  {
    assert o.(status := Cancelled).Remaining() == o.Remaining();
  }

  lemma ValidRestingCancels(s: State, id: OrderId)
    requires Valid(s) && Covered(s) && id in s.orders && s.orders[id].Resting()
    ensures Cancel(s, id).Ok?
  {
    assert RowOk(s.markets, id, s.orders[id]);
    if s.orders[id].side == Sell { RestingSellIsCovered(s, id); } else { RestingBuyIsCovered(s, id); }
    RestingIsOwed(s, id);
    CancelledOwesSame(s.markets, s.orders[id]);
    UnlocksWithin(s.funds, CancelSlot(s.markets, s.orders[id]), CancelAmount(s.orders[id]));
  }

  lemma UnlocksWithin(f: Funds, k: Slot, amount: real)
    requires 0.0 < amount <= LockedAt(f, k)
    ensures Unlock(f, k, amount).Ok?
  {
  }

  // How far a cancellation unlocks more than its order was owed.
  function Overpaid(o: Order, amount: real): real {
    if o.Resting() || amount <= 0.0 then 0.0 else amount
  }

  lemma CancelMoves(f: Funds, k: Slot, amount: real, j: Slot)
    requires Unlock(f, k, amount).Ok?
    ensures var gone := if j == k && amount > 0.0 then amount else 0.0;
      LockedAt(Unlock(f, k, amount).value, j) == LockedAt(f, j) - gone
  {
  }

  // The state after a cancellation, its amount as a number.
  ghost predicate Cancelling(s: State, id: OrderId, t: State, k: Slot, amount: real) {
    && Valid(s) && Covered(s) && id in s.orders && s.orders[id].marketId in s.markets
    && k == CancelSlot(s.markets, s.orders[id]) && amount == CancelAmount(s.orders[id])
    && Unlock(s.funds, k, amount) == Ok(t.funds)
    && t.orders == s.orders[id := s.orders[id].(status := Cancelled)]
    && t.trades == s.trades && t.markets == s.markets
    && (s.orders[id].Resting() ==> amount > 0.0)
  }

  lemma CancelParts(s: State, id: OrderId) returns (k: Slot, amount: real)
    requires Valid(s) && Covered(s) && Cancel(s, id).Ok?
    ensures Cancelling(s, id, Cancel(s, id).value, k, amount)
  {
    k, amount := CancelSlot(s.markets, s.orders[id]), CancelAmount(s.orders[id]);
    CancelledOwesSame(s.markets, s.orders[id]);
    if s.orders[id].Resting() { RestingIsOwed(s, id); }
  }

  lemma HoldingBalance(s: State, id: OrderId, t: State, k: Slot, amount: real, u: UserId, a: Asset)
    requires Cancelling(s, id, t, k, amount)
    ensures LockedAt(t.funds, Holding(u, a)) == Sum(t.orders, BaseTerm(s.markets, u, a))
      - (if k == Holding(u, a) then Overpaid(s.orders[id], amount) else 0.0)
  {
    CancelBaseTerms(s, id, s.orders[id].(status := Cancelled), u, a);
    CancelMoves(s.funds, k, amount, Holding(u, a));
  }

  lemma CancelKeeps(s: State, t: State, id: OrderId, u: UserId)
    requires Valid(s) && id in s.orders && t.trades == s.trades
    requires t.orders == s.orders[id := s.orders[id].(status := Cancelled)]
    ensures KeptBack(t.orders, t.trades)(u) == KeptBack(s.orders, s.trades)(u)
  {
    KeptSame(s.orders, t.orders, s.trades, u);
  }

  lemma CashBalance(s: State, id: OrderId, t: State, k: Slot, amount: real, u: UserId)
    requires Cancelling(s, id, t, k, amount)
    ensures LockedAt(t.funds, Cash(u)) == Sum(t.orders, CashTerm(u)) + KeptBack(t.orders, t.trades)(u)
      - (if k == Cash(u) then Overpaid(s.orders[id], amount) else 0.0)
  {
    CancelCashTerms(s, id, s.orders[id].(status := Cancelled), u, k, amount);
    CancelMoves(s.funds, k, amount, Cash(u));
    CancelKeeps(s, t, id, u);
  }

  // The status update has no guard, so an order can be cancelled that no longer rests.
  // A cancellation that goes through keeps the coverage if and only if its order was
  // resting or had nothing left to unlock.
  lemma ValidCancelCoveredIff(s: State, id: OrderId)
    requires Valid(s) && Covered(s) && Cancel(s, id).Ok?
    ensures Covered(Cancel(s, id).value) <==> s.orders[id].Resting() || CancelAmount(s.orders[id]) <= 0.0
  {
    var k, amount := CancelParts(s, id);
    BalanceDecides(s, id, Cancel(s, id).value, k, amount);
  }

  lemma BalanceDecides(s: State, id: OrderId, t: State, k: Slot, amount: real)
    requires Cancelling(s, id, t, k, amount)
    ensures Covered(t) <==> s.orders[id].Resting() || amount <= 0.0
  {
    if Overpaid(s.orders[id], amount) == 0.0 {
      HoldingsStayCovered(s, id, t, k, amount);
      CashStaysCovered(s, id, t, k, amount);
    } else {
      SomeSlotShort(s, id, t, k, amount);
    }
  }

  lemma HoldingsStayCovered(s: State, id: OrderId, t: State, k: Slot, amount: real)
    requires Cancelling(s, id, t, k, amount) && Overpaid(s.orders[id], amount) == 0.0
    ensures HoldingsCovered(t.markets, t.funds, t.orders)
  {
    forall u, a { HoldingBalance(s, id, t, k, amount, u, a); }
  }

  lemma CashStaysCovered(s: State, id: OrderId, t: State, k: Slot, amount: real)
    requires Cancelling(s, id, t, k, amount) && Overpaid(s.orders[id], amount) == 0.0
    ensures CashCovered(t.funds, t.orders, KeptBack(t.orders, t.trades))
  {
    forall u { CashBalance(s, id, t, k, amount, u); }
  }

  lemma SomeSlotShort(s: State, id: OrderId, t: State, k: Slot, amount: real)
    requires Cancelling(s, id, t, k, amount) && Overpaid(s.orders[id], amount) > 0.0
    ensures !Covered(t)
  {
    match k
    case Cash(u) => CashBalance(s, id, t, k, amount, u);
    case Holding(u, a) => HoldingBalance(s, id, t, k, amount, u, a);
  }

  lemma DepositCovered(s: State, user: UserId, asset: Asset, amount: real)
    requires Covered(s) && Deposit(s, user, asset, amount).Ok?
    ensures Covered(Deposit(s, user, asset, amount).value)
  {
    var t := Deposit(s, user, asset, amount).value;
    assert forall k :: LockedAt(t.funds, k) == LockedAt(s.funds, k);
  }

  // --- Any consistent state ---------------------------------------------------------------------

  // Nothing about the locks depends on the times.
  lemma CoveredBlind(s: State, t: State)
    requires Alike(s, t)
    ensures Covered(s) <==> Covered(t)
  {
    forall u, a ensures Sum(s.orders, BaseTerm(s.markets, u, a)) == Sum(t.orders, BaseTerm(s.markets, u, a)) {
      forall k: OrderId | k in s.orders
        ensures BaseTerm(s.markets, u, a)(k, s.orders[k]) == BaseTerm(s.markets, u, a)(k, t.orders[k])
      {
        assert Blind(s.orders[k], t.orders[k]);
      }
      SumAcross(s.orders, t.orders, BaseTerm(s.markets, u, a));
    }
    forall u
      ensures Sum(s.orders, CashTerm(u)) == Sum(t.orders, CashTerm(u))
      ensures KeptBack(s.orders, s.trades)(u) == KeptBack(t.orders, t.trades)(u)
    {
      CashBlind(s, t, u);
    }
  }

  lemma CashBlind(s: State, t: State, u: UserId)
    requires Alike(s, t)
    ensures Sum(s.orders, CashTerm(u)) == Sum(t.orders, CashTerm(u))
    ensures KeptBack(s.orders, s.trades)(u) == KeptBack(t.orders, t.trades)(u)
  {
    forall k: OrderId | k in s.orders ensures CashTerm(u)(k, s.orders[k]) == CashTerm(u)(k, t.orders[k]) {
      assert Blind(s.orders[k], t.orders[k]);
    }
    SumAcross(s.orders, t.orders, CashTerm(u));
    KeptBlind(s.orders, t.orders, s.trades, u);
  }

  lemma KeptBlind(orders: map<OrderId, Order>, rows: map<OrderId, Order>, trades: seq<Trade>, u: UserId)
    requires BlindRows(orders, rows)
    ensures KeptBack(orders, trades)(u) == KeptBack(rows, trades)(u)
  {
    forall x | x in trades ensures KeptTerm(orders, u)(x) == KeptTerm(rows, u)(x) {
      if x.buyOrderId in orders { assert Blind(orders[x.buyOrderId], rows[x.buyOrderId]); }
    }
    TotalSame(trades, KeptTerm(orders, u), KeptTerm(rows, u));
  }

  // Every resting order can be cancelled, ...
  lemma RestingCancels(s: State, id: OrderId)
    requires Consistent(s) && Covered(s) && id in s.orders && s.orders[id].Resting()
    ensures Cancel(s, id).Ok?
  {
    StoredIsAlike(s);
    CoveredBlind(s, Stored(s));
    ValidRestingCancels(Stored(s), id);
    CancelErrAlike(s, id);
  }

  // ... and the status update has no guard, so an order can be cancelled that no longer
  // rests. A cancellation that goes through keeps the coverage if and only if its order was
  // resting or had nothing left to unlock.
  lemma CancelCoveredIff(s: State, id: OrderId)
    requires Consistent(s) && Covered(s) && Cancel(s, id).Ok?
    ensures Covered(Cancel(s, id).value) <==> s.orders[id].Resting() || CancelAmount(s.orders[id]) <= 0.0
  {
    StoredIsAlike(s);
    CoveredBlind(s, Stored(s));
    CancelConsistent(s, id, Cancel(s, id).value);
    ValidCancelCoveredIff(Stored(s), id);
    CoveredBlind(Cancel(Stored(s), id).value, Cancel(s, id).value);
    SameCancel(s.markets, s.orders[id], Stored(s).orders[id]);
  }

  lemma AffordsBlind(mode: ReadMode, s: State, user: UserId, req: Request, id: OrderId, now: int)
    requires LiveBook(s.book)
    ensures Admissible(Stored(s), user, req, id, now) == Admissible(s, user, req, id, now)
    ensures TradesFor(mode, Stored(s), user, req, id, now) == TradesFor(mode, s, user, req, id, now)
  {
    var o := OrderOf(user, req, id, now);
    StoredIsAlike(s);
    assert BlindRows(Stored(s).orders[id := o], s.orders[id := o]);
    JoinedBlind(Stored(s).orders[id := o], s.orders[id := o], MatchFor(mode, s, user, req, id, now).trades);
  }

  lemma {:induction false} JoinedBlind(orders: map<OrderId, Order>, rows: map<OrderId, Order>, trades: seq<Trade>)
    requires BlindRows(orders, rows)
    ensures AllJoined(orders, trades) == AllJoined(rows, trades)
  {
    if trades != [] {
      JoinedBlind(orders, rows, trades[1..]);
      assert Joined(orders, trades[0]) == Joined(rows, trades[0]);
    }
  }

  // In any consistent state, in either mode and either reading of the times, a creation
  // succeeds if and only if it is admissible, the assets it names in trades are registered,
  // and none of the slots it settles from is asked for more, in all, than it will have
  // locked; and what stays locked is the difference.
  lemma CreateSucceedsIff(mode: ReadMode, times: TimeRead, s: State, user: UserId, req: Request, id: OrderId, now: int)
    requires Consistent(s) && LiveBook(s.book)
    ensures Create(mode, times, s, user, req, id, now).Ok?
       <==> Admissible(s, user, req, id, now) && Affords(mode, s, user, req, id, now)
    ensures Create(mode, times, s, user, req, id, now).Ok? ==>
      var r, trades := MatchFor(mode, s, user, req, id, now), TradesFor(mode, s, user, req, id, now);
      forall k :: LockedAt(Create(mode, times, s, user, req, id, now).value.funds, k)
               == Backing(s, user, req, k) - Asked(r.incoming, req.base, trades, k)
  {
    CreateAlike(mode, times, s, user, req, id, now);
    AffordsBlind(mode, s, user, req, id, now);
    ValidCreateSucceedsIff(mode, Stored(s), user, req, id, now);
    if req.marketId in s.markets {
      assert forall k :: Backing(Stored(s), user, req, k) == Backing(s, user, req, k);
    }
  }

  // An admissible one that does not fails for want of a registered asset, if its trades need
  // one, and otherwise because a slot has too little locked.
  lemma CreateFails(mode: ReadMode, times: TimeRead, s: State, user: UserId, req: Request, id: OrderId, now: int)
    requires Consistent(s) && LiveBook(s.book) && Admissible(s, user, req, id, now)
    requires Create(mode, times, s, user, req, id, now).Err?
    ensures Create(mode, times, s, user, req, id, now)
         == Err(if TradesFor(mode, s, user, req, id, now) == []
                   || (req.base in s.funds.assets && req.quote in s.funds.assets) then NoRows else ForeignKey)
  {
    CreateAlike(mode, times, s, user, req, id, now);
    AffordsBlind(mode, s, user, req, id, now);
    ValidCreateFails(mode, Stored(s), user, req, id, now);
  }

  // Reading fresh, a creation that goes through from a covered state leaves a covered one if
  // and only if its lock is taken in the slot that its order gives back to, and its request
  // names the base asset of its market, or meets nothing and gets nothing back in the asset
  // it names.
  lemma CreateCoveredIff(times: TimeRead, s: State, user: UserId, req: Request, id: OrderId, now: int, t: State)
    requires Consistent(s) && LiveBook(s.book) && Covered(s) && Registered(s)
    requires Create(Fresh, times, s, user, req, id, now) == Ok(t)
    ensures Covered(t) <==> Harmless(s, req, OrderOf(user, req, id, now), LevelsFor(s, user, req, id, now))
  {
    var k := CreateOnStored(Fresh, times, s, user, req, id, now, t);
    StoredIsCovered(s);
    HarmlessBlind(s, user, req, id, now);
    ValidCreateCoveredIff(Stored(s), user, req, id, now, k);
    CoveredBlind(k, t);
  }

  lemma StoredIsCovered(s: State)
    requires Consistent(s) && Covered(s) && Registered(s)
    ensures Valid(Stored(s)) && Covered(Stored(s)) && Registered(Stored(s))
  {
    StoredIsAlike(s);
    CoveredBlind(s, Stored(s));
  }

  lemma HarmlessBlind(s: State, user: UserId, req: Request, id: OrderId, now: int)
    ensures Harmless(s, req, OrderOf(user, req, id, now), LevelsFor(s, user, req, id, now))
         == Harmless(Stored(s), req, OrderOf(user, req, id, now), LevelsFor(Stored(s), user, req, id, now))
    ensures LevelsFor(Stored(s), user, req, id, now) == LevelsFor(s, user, req, id, now)
  {
  }

  // From a covered state such a harmless request goes through exactly when it is admissible
  // and, if it trades, its quote asset is registered: once its funds are locked no guard of
  // the settlement refuses, however often a counterparty appears, the taker included.
  lemma HarmlessSucceedsIff(times: TimeRead, s: State, user: UserId, req: Request, id: OrderId, now: int)
    requires Consistent(s) && LiveBook(s.book) && Covered(s) && Registered(s)
    requires Harmless(s, req, OrderOf(user, req, id, now), LevelsFor(s, user, req, id, now))
    ensures Create(Fresh, times, s, user, req, id, now).Ok? <==>
      && Admissible(s, user, req, id, now)
      && (Quiet(OrderOf(user, req, id, now), LevelsFor(s, user, req, id, now)) || req.quote in s.funds.assets)
  {
    CreateAlike(Fresh, times, s, user, req, id, now);
    AffordsBlind(Fresh, s, user, req, id, now);
    StoredIsCovered(s);
    HarmlessBlind(s, user, req, id, now);
    ValidHarmlessSucceedsIff(Stored(s), user, req, id, now);
  }

  // --- Runs -------------------------------------------------------------------------------------

  lemma CreateKeepsMarkets(mode: ReadMode, s: State, user: UserId, req: Request, id: OrderId, now: int, t: State)
    requires Valid(s) && LiveBook(s.book) && Registered(s) && Create(mode, Decoded, s, user, req, id, now) == Ok(t)
    ensures Registered(t)
  {
    CreateConserves(mode, s, user, req, id, now, CashColumn);
    var p := CreateStages(mode, s, user, req, id, now);
  }

  lemma OtherStepKeepsMarkets(mode: ReadMode, s: State, op: Op)
    requires LiveBook(s.book) && Registered(s) && !op.CreateOp?
    ensures Registered(Step(mode, Decoded, s, op))
  {
  }

  lemma StepKeepsMarkets(mode: ReadMode, s: State, op: Op)
    requires Valid(s) && LiveBook(s.book) && Registered(s)
    ensures Registered(Step(mode, Decoded, s, op))
  {
    if op.CreateOp? {
      var r := Create(mode, Decoded, s, op.user, op.req, op.id, op.now);
      if r.Ok? { CreateKeepsMarkets(mode, s, op.user, op.req, op.id, op.now, r.value); }
    } else {
      OtherStepKeepsMarkets(mode, s, op);
    }
  }

  // A creation that goes through is harmless; a cancellation that goes through is of an
  // order that rests or has nothing left to unlock.
  predicate Proper(times: TimeRead, s: State, op: Op)
    requires LiveBook(s.book)
  {
    match op
    case CreateOp(user, req, id, now) =>
      Create(Fresh, times, s, user, req, id, now).Ok? ==>
        Harmless(s, req, OrderOf(user, req, id, now), LevelsFor(s, user, req, id, now))
    case CancelOp(id) => Cancel(s, id).Ok? ==> s.orders[id].Resting() || CancelAmount(s.orders[id]) <= 0.0
    case DepositOp(_, _, _) => true
  }

  // A step from a covered state leaves a covered one if and only if it is proper.
  lemma StepCoveredIff(times: TimeRead, s: State, op: Op)
    requires Consistent(s) && LiveBook(s.book) && Covered(s) && Registered(s)
    ensures Covered(Step(Fresh, times, s, op)) <==> Proper(times, s, op)
  {
    match op
    case CreateOp(user, req, id, now) =>
      var r := Create(Fresh, times, s, user, req, id, now);
      if r.Ok? { CreateCoveredIff(times, s, user, req, id, now, r.value); }
    case CancelOp(id) => if Cancel(s, id).Ok? { CancelCoveredIff(s, id); }
    case DepositOp(user, asset, amount) => if Deposit(s, user, asset, amount).Ok? {
      DepositCovered(s, user, asset, amount);
    }
  }

  ghost predicate ProperRun(times: TimeRead, s: State, ops: seq<Op>)
    requires Consistent(s)
    decreases |ops|
  {
    ops == [] || (
      StepConsistent(Fresh, times, s, ops[0]);
      Proper(times, s, ops[0]) && ProperRun(times, Step(Fresh, times, s, ops[0]), ops[1..]))
  }

  lemma AnyStepKeepsMarkets(mode: ReadMode, times: TimeRead, s: State, op: Op)
    requires Consistent(s) && LiveBook(s.book) && Registered(s)
    ensures Registered(Step(mode, times, s, op))
  {
    StepAlike(mode, times, s, op);
    StepKeepsMarkets(mode, Stored(s), op);
  }

  lemma {:induction false} RunStaysCovered(times: TimeRead, s: State, ops: seq<Op>)
    requires Consistent(s) && Covered(s) && Registered(s) && ProperRun(times, s, ops)
    ensures var t := Run(Fresh, times, s, ops); Consistent(t) && Covered(t) && Registered(t)
    decreases |ops|
  {
    if ops != [] {
      StepConsistent(Fresh, times, s, ops[0]);
      StepCoveredIff(times, s, ops[0]);
      AnyStepKeepsMarkets(Fresh, times, s, ops[0]);
      RunStaysCovered(times, Step(Fresh, times, s, ops[0]), ops[1..]);
    }
  }

  // Lock coverage over runs: in every state a run reaches, each user's locked holding
  // of an asset is what remains of their resting sells of it, and their locked dollars
  // are the limits of what remains of their resting buys plus the price improvement
  // kept back, which is never negative. In that state every resting order can be
  // cancelled, and every admissible request that names its market's assets goes through.
  lemma RunCovered(times: TimeRead, s: State, ops: seq<Op>)
    requires Consistent(s) && Covered(s) && Registered(s) && ProperRun(times, s, ops)
    ensures var t := Run(Fresh, times, s, ops);
      && Consistent(t) && LiveBook(t.book) && Registered(t)
      && (forall u, a :: LockedAt(t.funds, Holding(u, a)) == Sum(t.orders, BaseTerm(t.markets, u, a)))
      && (forall u :: LockedAt(t.funds, Cash(u)) == Sum(t.orders, CashTerm(u)) + KeptBack(t.orders, t.trades)(u))
      && (forall u :: KeptBack(t.orders, t.trades)(u) >= 0.0)
      && (forall user, req, id, now :: LocksOwn(t, req) && NamesBase(t, req) && req.quote in t.funds.assets ==>
            (Create(Fresh, times, t, user, req, id, now).Ok? <==> Admissible(t, user, req, id, now)))
      && (forall id :: id in t.orders && t.orders[id].Resting() ==> Cancel(t, id).Ok?)
  {
    RunStaysCovered(times, s, ops);
    var t := Run(Fresh, times, s, ops);
    ConsistentIsLive(t);
    forall u ensures KeptBack(t.orders, t.trades)(u) >= 0.0 { KeptStaysPositive(t, u); }
    forall user, req, id, now | LocksOwn(t, req) && NamesBase(t, req) && req.quote in t.funds.assets
      ensures Create(Fresh, times, t, user, req, id, now).Ok? <==> Admissible(t, user, req, id, now)
    {
      HarmlessSucceedsIff(times, t, user, req, id, now);
    }
    forall id | id in t.orders && t.orders[id].Resting() ensures Cancel(t, id).Ok? { RestingCancels(t, id); }
  }

  lemma KeptStaysPositive(t: State, u: UserId)
    requires Consistent(t)
    ensures KeptBack(t.orders, t.trades)(u) >= 0.0
  {
    StoredIsAlike(t);
    CashBlind(t, Stored(t), u);
    KeptNonNegative(Stored(t).orders, t.trades, u);
  }

  // The exchange as it starts: users, balances and markets, no orders, nothing locked.
  ghost predicate Initial(s: State) {
    && Sound(s.funds) && s.orders == map[] && s.trades == [] && s.book == EMPTY
    && forall k :: k in s.funds.rows ==> s.funds.rows[k].locked == 0.0
  }

  lemma InitialIsCovered(s: State)
    requires Initial(s)
    ensures Valid(s) && Covered(s)
  {
  }
}
