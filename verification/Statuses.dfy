// The status of every order over runs: what the last word on it says.

module Statuses {
  import opened Models
  import opened Sums
  import opened OrderBook
  import opened Matching
  import opened Exchange
  import opened Validity
  import opened Steps
  import opened ReadTimes
  import opened Runs
  import opened Accounting

  // What fills an order: its quantity, but of a market buy a nominal 1e18.
  function Whole(o: Order): real {
    if o.kind == Market && o.side == Buy then 1000000000000000000.0 else o.quantity
  }

  // The status that an order has: cancelled, if it has been cancelled, filled in part or not;
  // and otherwise the one that its fill gives it. What is left of a market order is cancelled
  // at once.
  predicate HasStatus(o: Order, cancelled: bool) {
    if cancelled then o.status == Cancelled
    else if o.filled == Whole(o) then o.status == Filled
    else if o.kind == Market then o.status == Cancelled
    else o.status == if o.filled > 0.0 then PartiallyFilled else Open
  }

  // With the orders that have been cancelled; the fill of a market order is the volume of the
  // trades that name it.
  ghost predicate Statuses(s: State, cancelled: set<OrderId>) {
    && cancelled <= s.orders.Keys
    && forall id :: id in s.orders ==>
         && HasStatus(s.orders[id], id in cancelled)
         && (s.orders[id].kind == Market ==> s.orders[id].filled == TradedOf(s.trades, id))
  }

  // --- One creation ------------------------------------------------------------------------

  lemma MatchStatus(mode: ReadMode, o: Order, view: seq<Order>, pair: Pair)
    requires Live(view) && o.filled == 0.0 && o.quantity > 0.0 && o.price >= 0.0
    ensures var i := Match(mode, o, view, pair).incoming; HasStatus(o.(status := i.status, filled := i.filled), false)
  {
    MatchFacts(mode, o, view, pair);
  }

  lemma NewStatus(mode: ReadMode, s: State, user: UserId, req: Request, id: OrderId, now: int, t: State, p: Stages)
    requires Valid(s) && Created(mode, s, user, req, id, now, t, p)
    ensures id !in s.orders && t.orders.Keys == s.orders.Keys + {id}
    ensures HasStatus(t.orders[id], false) && t.orders[id].filled == TradedOf(t.trades, id)
  {
    CreatedRows(mode, s, user, req, id, now, t, p);
    MatchStatus(mode, p.o, p.view, p.pair);
    CreatedFills(mode, s, user, req, id, now, t, p);
    TradedAfter(mode, s, p.o, p.view, p.pair, p.result, t, id);
  }

  // What a creation leaves of an older order: it may have been hit, if it was resting; market
  // orders never rest, so no later trade names them.
  ghost predicate Older(s: State, t: State, k: OrderId) {
    && k in s.orders && k in t.orders
    && (t.orders[k] == s.orders[k] || (s.orders[k].Resting() && HitAs(s.orders[k], t.orders[k])))
    && (s.orders[k].kind == Market ==>
          t.orders[k] == s.orders[k] && TradedOf(t.trades, k) == TradedOf(s.trades, k))
  }

  predicate HitAs(level: Order, row: Order) { level.kind == Limit && level.filled >= 0.0 && IsBump(level, row) }

  lemma CreatedHits(mode: ReadMode, s: State, user: UserId, req: Request, id: OrderId, now: int, t: State, p: Stages,
                    k: OrderId)
    requires Valid(s) && Created(mode, s, user, req, id, now, t, p) && k in s.orders
    ensures k in t.orders
    ensures t.orders[k] == s.orders[k] || (s.orders[k].Resting() && HitAs(s.orders[k], t.orders[k]))
  {
    StagesRecord(mode, s, user, req, id, now, t, p);
    RecordedHits(mode, s, t, p, k);
  }

  lemma RecordedHits(mode: ReadMode, s: State, t: State, p: Stages, k: OrderId)
    requires Valid(s) && Recorded(mode, s, t, p) && k in s.orders
    ensures k in t.orders
    ensures t.orders[k] == s.orders[k] || (s.orders[k].Resting() && HitAs(s.orders[k], t.orders[k]))
  {
    RecordedRows(mode, s, t, p);
    KeyedRow(t.orders, t.book, k);
    if t.orders[k] != s.orders[k] { BumpHits(s, p.o, p.view, t.orders[k]); }
  }

  lemma KeyedRow(orders: map<OrderId, Order>, b: Book, k: OrderId)
    requires Agrees(orders, b) && k in orders
    ensures orders[k].id == k
  {
  }

  lemma BumpHits(s: State, o: Order, view: seq<Order>, row: Order)
    requires Valid(s) && o.id !in s.orders && view == Levels(s.book, OppositeKey(o)) && Bumped(view, row)
    ensures row.id in s.orders && s.orders[row.id].Resting() && HitAs(s.orders[row.id], row)
  {
    var i := BumpedBy(view, row);
    ViewRows(s, o, s.orders[o.id := o], view);
  }

  lemma BumpedBy(view: seq<Order>, row: Order) returns (i: nat)
    requires Bumped(view, row)
    ensures i < |view| && IsBump(view[i], row)
  {
    i :| 0 <= i < |view| && IsBump(view[i], row);
  }

  lemma MarketSpared(mode: ReadMode, s: State, user: UserId, req: Request, id: OrderId, now: int, t: State, p: Stages,
                     k: OrderId)
    requires Valid(s) && Created(mode, s, user, req, id, now, t, p) && k in s.orders && s.orders[k].kind == Market
    ensures k in t.orders && t.orders[k] == s.orders[k] && TradedOf(t.trades, k) == TradedOf(s.trades, k)
  {
    assert RowOk(s.markets, k, s.orders[k]);
    CreateRowsEvolve(mode, s, user, req, id, now, t, p);
    CreateTradesSpare(mode, s, user, req, id, now, t, p, k);
    NotNamed(p.inserted, k);
    TotalAppend(s.trades, p.inserted, NamedTerm(k));
  }

  lemma CreatedOlder(mode: ReadMode, s: State, user: UserId, req: Request, id: OrderId, now: int, t: State, p: Stages,
                     k: OrderId)
    requires Valid(s) && Created(mode, s, user, req, id, now, t, p) && k in s.orders
    ensures Older(s, t, k)
  {
    CreatedHits(mode, s, user, req, id, now, t, p, k);
    if s.orders[k].kind == Market { MarketSpared(mode, s, user, req, id, now, t, p, k); }
  }

  // So the older orders keep the status of their fill, and the new one has its own.
  lemma OlderAndNew(s: State, t: State, id: OrderId, cancelled: set<OrderId>)
    requires Statuses(s, cancelled) && id !in s.orders && t.orders.Keys == s.orders.Keys + {id}
    requires forall k :: k in s.orders ==> Older(s, t, k)
    requires HasStatus(t.orders[id], false) && t.orders[id].filled == TradedOf(t.trades, id)
    ensures Statuses(t, cancelled)
  {
    forall k | k in t.orders
      ensures HasStatus(t.orders[k], k in cancelled)
      ensures t.orders[k].kind == Market ==> t.orders[k].filled == TradedOf(t.trades, k)
    {
      if k in s.orders {
        assert Older(s, t, k);
        OlderStatus(s.orders[k], t.orders[k], k in cancelled);
      }
    }
  }

  lemma OlderStatus(a: Order, b: Order, cancelled: bool)
    requires b == a || (a.Resting() && HitAs(a, b))
    requires HasStatus(a, cancelled)
    ensures HasStatus(b, cancelled) && b.kind == a.kind
  {
  }

  lemma CreateStatuses(mode: ReadMode, s: State, user: UserId, req: Request, id: OrderId, now: int, t: State,
                       cancelled: set<OrderId>)
    requires Valid(s) && LiveBook(s.book) && Create(mode, Decoded, s, user, req, id, now) == Ok(t)
    requires Statuses(s, cancelled)
    ensures Statuses(t, cancelled)
  {
    var p := CreateStages(mode, s, user, req, id, now);
    NewStatus(mode, s, user, req, id, now, t, p);
    forall k | k in s.orders ensures Older(s, t, k) { CreatedOlder(mode, s, user, req, id, now, t, p, k); }
    OlderAndNew(s, t, id, cancelled);
  }

  // --- Every step -----------------------------------------------------------------------------

  lemma StatusesBlind(s: State, t: State, cancelled: set<OrderId>)
    requires Alike(s, t) && Statuses(s, cancelled)
    ensures Statuses(t, cancelled)
  {
    forall k | k in t.orders
      ensures HasStatus(t.orders[k], k in cancelled)
      ensures t.orders[k].kind == Market ==> t.orders[k].filled == TradedOf(t.trades, k)
    {
      assert Blind(s.orders[k], t.orders[k]);
    }
  }

  // The order that a step cancels.
  function CancelledBy(s: State, op: Op): set<OrderId> {
    if op.CancelOp? && Cancel(s, op.target).Ok? then {op.target} else {}
  }

  lemma CancelStatuses(s: State, id: OrderId, t: State, cancelled: set<OrderId>)
    requires Cancel(s, id) == Ok(t) && Statuses(s, cancelled)
    ensures Statuses(t, cancelled + {id})
  {
  }

  lemma StepStatuses(mode: ReadMode, times: TimeRead, s: State, op: Op, cancelled: set<OrderId>)
    requires Consistent(s) && LiveBook(s.book) && Statuses(s, cancelled)
    ensures Statuses(Step(mode, times, s, op), cancelled + CancelledBy(s, op))
  {
    assert cancelled + {} == cancelled;
    if op.CreateOp? {
      var r := Create(mode, times, s, op.user, op.req, op.id, op.now);
      if r.Ok? { AnyCreateStatuses(mode, times, s, op.user, op.req, op.id, op.now, r.value, cancelled); }
    } else {
      OtherStepStatuses(mode, times, s, op, cancelled);
    }
  }

  lemma OtherStepStatuses(mode: ReadMode, times: TimeRead, s: State, op: Op, cancelled: set<OrderId>)
    requires LiveBook(s.book) && Statuses(s, cancelled) && !op.CreateOp?
    ensures Statuses(Step(mode, times, s, op), cancelled + CancelledBy(s, op))
  {
    assert cancelled + {} == cancelled;
    if op.CancelOp? && Cancel(s, op.target).Ok? {
      CancelStatuses(s, op.target, Cancel(s, op.target).value, cancelled);
    }
  }

  lemma AnyCreateStatuses(mode: ReadMode, times: TimeRead, s: State, user: UserId, req: Request, id: OrderId, now: int,
                          t: State, cancelled: set<OrderId>)
    requires Consistent(s) && LiveBook(s.book) && Create(mode, times, s, user, req, id, now) == Ok(t)
    requires Statuses(s, cancelled)
    ensures Statuses(t, cancelled)
  {
    var k := CreateOnStored(mode, times, s, user, req, id, now, t);
    StoredIsAlike(s);
    StatusesBlind(s, Stored(s), cancelled);
    CreateStatuses(mode, Stored(s), user, req, id, now, k, cancelled);
    StatusesBlind(k, t, cancelled);
  }

  // --- Runs --------------------------------------------------------------------------------------

  // The orders that the cancellations of a run cancelled.
  ghost function CancelledIn(mode: ReadMode, times: TimeRead, s: State, ops: seq<Op>): set<OrderId>
    requires Consistent(s)
    decreases |ops|
  {
    if ops == [] then {}
    else
      StepConsistent(mode, times, s, ops[0]);
      CancelledBy(s, ops[0]) + CancelledIn(mode, times, Step(mode, times, s, ops[0]), ops[1..])
  }

  // After any run, in both modes and both readings of the times, every order has the status
  // that its fill gives it, unless it has been cancelled; and the fill of a market order is
  // the volume of the trades that name it.
  lemma {:induction false} RunStatuses(mode: ReadMode, times: TimeRead, s: State, ops: seq<Op>, cancelled: set<OrderId>)
    requires Consistent(s) && Statuses(s, cancelled)
    ensures Statuses(Run(mode, times, s, ops), cancelled + CancelledIn(mode, times, s, ops))
    decreases |ops|
  {
    if ops == [] {
      assert cancelled + {} == cancelled;
    } else {
      StepConsistent(mode, times, s, ops[0]);
      StepStatuses(mode, times, s, ops[0], cancelled);
      var t, first := Step(mode, times, s, ops[0]), CancelledBy(s, ops[0]);
      RunStatuses(mode, times, t, ops[1..], cancelled + first);
      HitsThen(cancelled, first, CancelledIn(mode, times, t, ops[1..]));
    }
  }

  // Of the market orders that a run has made out of nothing, and that have not been cancelled:
  // a sell is filled if and only if all of its quantity has been traded, a buy if and only if
  // 1e18 has been, and they are cancelled otherwise.
  lemma RunSettlesMarkets(mode: ReadMode, times: TimeRead, s: State, ops: seq<Op>, id: OrderId)
    requires Consistent(s) && s.orders == map[] && id !in CancelledIn(mode, times, s, ops)
    requires id in Run(mode, times, s, ops).orders && Run(mode, times, s, ops).orders[id].kind == Market
    ensures var t := Run(mode, times, s, ops);
      var row, traded := t.orders[id], TradedOf(t.trades, id);
      && row.filled == traded
      && row.status == if traded == (if row.side == Sell then row.quantity else 1000000000000000000.0) then Filled
                       else Cancelled
  {
    RunStatuses(mode, times, s, ops, {});
    assert {} + CancelledIn(mode, times, s, ops) == CancelledIn(mode, times, s, ops);
  }
}
