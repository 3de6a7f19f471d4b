// One step of the exchange, the creation times read back from the book as they were
// written: what it keeps, what it moves, and how rows may change.

module Steps {
  import opened Models
  import opened Ledger
  import opened OrderBook
  import opened Matching
  import opened Settlement
  import opened Coverage
  import opened Exchange
  import opened Validity

  // --- What a step keeps --------------------------------------------------------------

  lemma CancelKeepsValid(s: State, id: OrderId)
    requires Valid(s) && Cancel(s, id).Ok?
    ensures Valid(Cancel(s, id).value) && SameCores(s.orders, Cancel(s, id).value.orders)
  {
    var o := s.orders[id].(status := Cancelled);
    var t := Cancel(s, id).value;
    UnlockConserves(s.funds, CancelSlot(s.markets, o), CancelAmount(o), CashColumn);
    CancelRows(s.markets, s.funds, t.funds, s.orders, id);
    RemoveAgrees(s.orders, s.book, o);
    forall x | x in t.trades ensures TradeOk(t.orders, x) {
      TradeStaysOk(s.orders, t.orders, x);
    }
  }

  lemma CancelRows(markets: Markets, f: Funds, g: Funds, orders: map<OrderId, Order>, id: OrderId)
    requires RowsOk(markets, orders) && UsersKnown(f, orders) && Kept(f, g) && id in orders
    ensures var rows := orders[id := orders[id].(status := Cancelled)];
      RowsOk(markets, rows) && UsersKnown(g, rows) && SameCores(orders, rows)
  {
  }

  lemma DepositKeepsValid(s: State, user: UserId, asset: Asset, amount: real)
    requires Valid(s) && Deposit(s, user, asset, amount).Ok?
    ensures Valid(Deposit(s, user, asset, amount).value)
  {
  }

  // Every step keeps the schema, the statuses, the limits of all trades, and the
  // agreement of the book with the order table.
  lemma StepKeepsValid(mode: ReadMode, s: State, op: Op)
    requires Valid(s)
    ensures LiveBook(s.book)
    ensures Valid(Step(mode, Decoded, s, op)) && SameCores(s.orders, Step(mode, Decoded, s, op).orders)
  {
    ValidIsLive(s);
    match op
    case CreateOp(user, req, id, now) =>
      if Create(mode, Decoded, s, user, req, id, now).Ok? { CreateKeepsValid(mode, s, user, req, id, now); }
    case CancelOp(id) =>
      if Cancel(s, id).Ok? { CancelKeepsValid(s, id); }
    case DepositOp(user, asset, amount) =>
      if Deposit(s, user, asset, amount).Ok? { DepositKeepsValid(s, user, asset, amount); }
  }

  // --- Conservation --------------------------------------------------------------------

  // What a step brings into a column from outside: a deposit that goes through, to a
  // user that exists.
  function Inflow(s: State, op: Op, c: Column): real {
    match op
    case DepositOp(user, asset, amount) =>
      if amount > 0.0 && Cash(user) in s.funds.rows && (asset == USD || asset in s.funds.assets)
      then Share(c, SlotFor(user, asset), amount)
      else 0.0
    case _ => 0.0
  }

  lemma StepConserves(mode: ReadMode, s: State, op: Op, c: Column)
    requires Valid(s) && LiveBook(s.book)
    ensures Held(Step(mode, Decoded, s, op).funds, c) == Held(s.funds, c) + Inflow(s, op, c)
  {
    match op
    case CreateOp(user, req, id, now) =>
      if Create(mode, Decoded, s, user, req, id, now).Ok? { CreateConserves(mode, s, user, req, id, now, c); }
    case CancelOp(id) =>
      if Cancel(s, id).Ok? {
        var o := s.orders[id].(status := Cancelled);
        UnlockConserves(s.funds, CancelSlot(s.markets, o), CancelAmount(o), c);
      }
    case DepositOp(user, asset, amount) =>
      if amount > 0.0 && Cash(user) in s.funds.rows {
        if asset == USD {
          CreditUSDHeld(s.funds, user, amount, c);
        } else if asset in s.funds.assets {
          CreditHeld(s.funds, user, asset, amount, c);
        }
      }
  }

  // --- The life of an order -----------------------------------------------------------------

  predicate Names(t: Trade, id: OrderId) { t.buyOrderId == id || t.sellOrderId == id }

  // What one state may become: rows stay, with their terms; fills only grow; an order
  // that no longer rests never rests again, keeps its fill, and is in no new trade.
  ghost predicate Evolves(s: State, t: State) {
    && SameCores(s.orders, t.orders)
    && s.trades <= t.trades
    && (forall id :: id in s.orders ==> s.orders[id].filled <= t.orders[id].filled)
    && (forall id :: id in s.orders && !s.orders[id].Resting() ==>
          !t.orders[id].Resting() && t.orders[id].filled == s.orders[id].filled)
    && (forall id, i :: id in s.orders && !s.orders[id].Resting() && |s.trades| <= i < |t.trades| ==>
          !Names(t.trades[i], id))
  }

  lemma EvolvesTransitive(s: State, t: State, u: State)
    requires Evolves(s, t) && Evolves(t, u)
    ensures Evolves(s, u)
  {
    forall id, i | id in s.orders && !s.orders[id].Resting() && |s.trades| <= i < |u.trades|
      ensures !Names(u.trades[i], id)
    {
      if i < |t.trades| { assert u.trades[i] == t.trades[i]; }
    }
  }

  // The trades of a creation are between the new order and levels that rested.
  lemma NewTradesSpare(orders: map<OrderId, Order>, pending: map<OrderId, Order>, taker: Taker, view: seq<Order>,
                       trades: seq<Trade>, pair: Pair, k: OrderId)
    requires k in orders && !orders[k].Resting() && taker.id !in orders
    requires forall i :: 0 <= i < |view| ==> view[i].id in orders && orders[view[i].id].Resting()
    requires forall y :: y in trades ==> TradesOn(taker, view, y, pair)
    ensures forall x :: x in AllJoined(pending, trades) ==> !Names(x, k)
  {
    forall x | x in AllJoined(pending, trades) ensures !Names(x, k) {
      JoinedMember(pending, trades, x);
      var y :| y in trades && x == Joined(pending, y);
      var j :| 0 <= j < |view| && IsTradeOn(taker, view[j], y, pair);
    }
  }

  lemma CreateTradesSpare(mode: ReadMode, s: State, user: UserId, req: Request, id: OrderId, now: int, t: State,
                          p: Stages, k: OrderId)
    requires Valid(s) && Created(mode, s, user, req, id, now, t, p) && k in s.orders && !s.orders[k].Resting()
    ensures forall x :: x in p.inserted ==> !Names(x, k)
  {
    ViewRows(s, p.o, p.pending, p.view);
    StagesSettleable(mode, s, user, req, id, now, t, p);
    SweepTrades(mode, TakerOf(p.o), p.view, p.result.updated, p.result.trades, p.pair);
    NewTradesSpare(s.orders, p.pending, TakerOf(p.o), p.view, p.result.trades, p.pair, k);
  }

  lemma CreateRowsEvolve(mode: ReadMode, s: State, user: UserId, req: Request, id: OrderId, now: int, t: State,
                         p: Stages)
    requires Valid(s) && Created(mode, s, user, req, id, now, t, p)
    ensures SameCores(s.orders, t.orders)
    ensures forall k :: k in s.orders ==> s.orders[k].filled <= t.orders[k].filled
    ensures forall k :: k in s.orders && !s.orders[k].Resting() ==> t.orders[k] == s.orders[k]
  {
    ViewRows(s, p.o, p.pending, p.view);
    CreatedRows(mode, s, user, req, id, now, t, p);
    StagesRows(mode, s, user, req, id, now, t, p);
    RowsEvolve(s.orders, t.orders, p.view);
  }

  lemma CreateEvolves(mode: ReadMode, s: State, user: UserId, req: Request, id: OrderId, now: int)
    requires Valid(s) && LiveBook(s.book) && Create(mode, Decoded, s, user, req, id, now).Ok?
    ensures Evolves(s, Create(mode, Decoded, s, user, req, id, now).value)
  {
    var t := Create(mode, Decoded, s, user, req, id, now).value;
    var p := CreateStages(mode, s, user, req, id, now);
    assert t.trades == s.trades + p.inserted;
    CreateRowsEvolve(mode, s, user, req, id, now, t, p);
    forall k | k in s.orders && !s.orders[k].Resting()
      ensures forall x :: x in p.inserted ==> !Names(x, k)
    {
      CreateTradesSpare(mode, s, user, req, id, now, t, p, k);
    }
    GrowthEvolves(s, t, p.inserted);
  }

  lemma GrowthEvolves(s: State, t: State, inserted: seq<Trade>)
    requires SameCores(s.orders, t.orders) && t.trades == s.trades + inserted
    requires forall k :: k in s.orders ==> s.orders[k].filled <= t.orders[k].filled
    requires forall k :: k in s.orders && !s.orders[k].Resting() ==> t.orders[k] == s.orders[k]
    requires forall k :: k in s.orders && !s.orders[k].Resting() ==> forall x :: x in inserted ==> !Names(x, k)
    ensures Evolves(s, t)
  {
    forall k, i | k in s.orders && !s.orders[k].Resting() && |s.trades| <= i < |t.trades|
      ensures !Names(t.trades[i], k)
    {
      assert t.trades[i] == inserted[i - |s.trades|];
      assert t.trades[i] in inserted;
    }
  }

  lemma RowsEvolve(orders: map<OrderId, Order>, rows: map<OrderId, Order>, view: seq<Order>)
    requires orders.Keys <= rows.Keys && Keyed(orders) && Keyed(rows)
    requires forall i :: 0 <= i < |view| ==> view[i].id in orders && orders[view[i].id] == view[i] && view[i].Resting()
    requires forall k :: k in orders ==> rows[k] == orders[k] || Bumped(view, rows[k])
    ensures forall k :: k in orders ==> orders[k].filled <= rows[k].filled
    ensures forall k :: k in orders && !orders[k].Resting() ==> rows[k] == orders[k]
  {
    forall k | k in orders
      ensures orders[k].filled <= rows[k].filled
      ensures !orders[k].Resting() ==> rows[k] == orders[k]
    {
      if rows[k] != orders[k] {
        var i :| 0 <= i < |view| && IsBump(view[i], rows[k]);
      }
    }
  }

  lemma StepEvolves(mode: ReadMode, s: State, op: Op)
    requires Valid(s) && LiveBook(s.book)
    ensures Evolves(s, Step(mode, Decoded, s, op))
  {
    if op.CreateOp? {
      if Create(mode, Decoded, s, op.user, op.req, op.id, op.now).Ok? {
        CreateEvolves(mode, s, op.user, op.req, op.id, op.now);
      }
    } else {
      OtherStepEvolves(mode, s, op);
    }
  }

  lemma OtherStepEvolves(mode: ReadMode, s: State, op: Op)
    requires LiveBook(s.book) && !op.CreateOp?
    ensures Evolves(s, Step(mode, Decoded, s, op))
  {
  }
}
