// What one step undoes of another: cancelling an order that has not traded takes back
// everything that creating it did, but for the row and its place in the unique index.

module RoundTrips {
  import opened Models
  import opened Ledger
  import opened OrderBook
  import opened Matching
  import opened Settlement
  import opened Exchange
  import opened Validity
  import opened ReadTimes
  import opened Demands
  import opened Creations

  // --- The book -----------------------------------------------------------------------

  // Taking an order out of the book undoes writing it there.
  lemma RemoveUndoesInsert(orders: map<OrderId, Order>, b: Book, o: Order, done: Order)
    requires Agrees(orders, b) && o.id !in orders && o.Resting() && !done.Resting()
    requires done.id == o.id && KeyOf(done) == KeyOf(o)
    ensures Remove(Insert(b, o), done) == b
  {
    InsertAgrees(orders, b, o);
    RemoveAgrees(orders[o.id := o], Insert(b, o), done);
    QuietRowAgrees(orders, b, done);
    assert orders[o.id := o][done.id := done] == orders[done.id := done];
    AgreementIsUnique(orders[done.id := done], Remove(Insert(b, o), done), b);
  }

  // --- A creation without trades --------------------------------------------------------

  // An order that has just been created and has not traded.
  ghost predicate Untraded(s: State, t: State, o: Order, amount: real) {
    && o.id !in s.orders && o.marketId in s.markets && o.kind == Limit && o.filled == 0.0 && o.status == Open
    && t.orders == s.orders[o.id := o] && t.book == Insert(s.book, o)
    && t.trades == s.trades && t.markets == s.markets
    && amount == (if o.side == Sell then o.quantity else o.price * o.quantity) && amount > 0.0
    && LockBalance(s.funds, o.userId, LockAsset(s.markets[o.marketId], o.side), amount) == Ok(t.funds)
  }

  lemma UntradedMatch(mode: ReadMode, o: Order, seen: seq<Order>, pair: Pair, r: OrderResult)
    requires Live(seen) && o.kind == Limit && o.filled == 0.0 && o.quantity > 0.0 && o.price >= 0.0
    requires r == Match(mode, o, seen, pair) && r.incoming.filled == 0.0
    ensures r.trades == [] && r.updated == [] && r.incoming == o.(status := Open)
  {
    MatchFacts(mode, o, seen, pair);
    if r.trades != [] { TradesHaveVolume(mode, TakerOf(o), seen, r.updated, r.trades, pair); }
  }

  lemma UntradedRow(mode: ReadMode, times: TimeRead, s: State, t: State, o: Order, view: seq<Order>, pair: Pair,
                    r: OrderResult)
    requires Parts(mode, times, s, t, o, view, pair, r) && o.kind == Limit
    requires o.id in t.orders && t.orders[o.id].filled == 0.0
    ensures r.trades == [] && r.incoming == o.(status := Open)
    ensures t.orders == s.orders[o.id := o.(status := Open)] && t.book == Insert(s.book, o.(status := Open))
    ensures t.trades == s.trades
  {
    ReadBlind(times, view);
    MatchFacts(mode, o, AllAsRead(times, view), pair);
    var rows := RowsThenLast(s.orders[o.id := o], r, o.id);
    UntradedMatch(mode, o, AllAsRead(times, view), pair, r);
    assert s.orders[o.id := o][o.id := o.(status := Open)] == s.orders[o.id := o.(status := Open)];
  }

  // Settling nothing moves nothing.
  lemma NothingSettles(f: Funds, orders: map<OrderId, Order>, trades: seq<Trade>, r: OrderResult, pair: Pair)
    requires r.incoming.kind == Limit && r.trades == []
    ensures ApplyToTables(Tables(f, orders, trades), r, pair) == Ok(Tables(f, RowsAfter(orders, r), trades))
  {
    assert trades + [] == trades;
  }

  // What its creation locked.
  ghost predicate Funded(s: State, t: State, o: Order, amount: real) {
    && o.marketId in s.markets && t.markets == s.markets
    && amount == (if o.side == Sell then o.quantity else o.price * o.quantity) && amount > 0.0
    && LockBalance(s.funds, o.userId, LockAsset(s.markets[o.marketId], o.side), amount) == Ok(t.funds)
  }

  // The transaction of a creation that went through, up to its match.
  lemma CreatedFunds(mode: ReadMode, times: TimeRead, s: State, user: UserId, req: Request, id: OrderId, now: int,
                     t: State)
    returns (o: Order, r: OrderResult, f: Funds)
    requires LiveBook(s.book) && Create(mode, times, s, user, req, id, now) == Ok(t)
    ensures o == OrderOf(user, req, id, now) && Admissible(s, user, req, id, now)
    ensures r == Match(mode, o, AllAsRead(times, LevelsFor(s, user, req, id, now)), Pair(req.base, req.quote))
    ensures LockBalance(s.funds, user, LockAsset(s.markets[req.marketId], req.side), LockAmount(Effective(req)))
         == Ok(f)
    ensures ApplyToTables(Tables(f, s.orders[id := o], s.trades), r, Pair(req.base, req.quote))
         == Ok(Tables(t.funds, t.orders, t.trades))
    ensures t.markets == s.markets && t.stamps == s.stamps + {Stamp(user, req.marketId, now)}
  {
    o := OrderOf(user, req, id, now);
    r := Match(mode, o, AllAsRead(times, LevelsFor(s, user, req, id, now)), Pair(req.base, req.quote));
    f := CreatedLocks(mode, times, s, user, req, id, now);
    CreateIsExecute(mode, times, s, user, req, id, now, f);
  }

  lemma AdmissibleIsFunded(s: State, user: UserId, req: Request, id: OrderId, now: int, t: State)
    requires Admissible(s, user, req, id, now) && req.kind == Limit && t.markets == s.markets
    requires LockBalance(s.funds, user, LockAsset(s.markets[req.marketId], req.side), LockAmount(Effective(req)))
          == Ok(t.funds)
    ensures Funded(s, t, OrderOf(user, req, id, now), LockAmount(Effective(req)))
  {
  }

  lemma UntradedFunds(mode: ReadMode, times: TimeRead, s: State, user: UserId, req: Request, id: OrderId, now: int,
                      t: State)
    requires LiveBook(s.book) && Create(mode, times, s, user, req, id, now) == Ok(t)
    requires var o, view := OrderOf(user, req, id, now), LevelsFor(s, user, req, id, now);
      o.kind == Limit && Match(mode, o, AllAsRead(times, view), Pair(req.base, req.quote)).trades == []
    ensures Funded(s, t, OrderOf(user, req, id, now), LockAmount(Effective(req)))
    ensures t.stamps == s.stamps + {Stamp(user, req.marketId, now)}
  {
    var o, r, f := CreatedFunds(mode, times, s, user, req, id, now, t);
    ReadBlind(times, LevelsFor(s, user, req, id, now));
    MatchFacts(mode, o, AllAsRead(times, LevelsFor(s, user, req, id, now)), Pair(req.base, req.quote));
    NothingSettles(f, s.orders[id := o], s.trades, r, Pair(req.base, req.quote));
    AdmissibleIsFunded(s, user, req, id, now, t);
  }

  lemma UntradedCreation(mode: ReadMode, times: TimeRead, s: State, user: UserId, req: Request, id: OrderId, now: int,
                         t: State)
    requires LiveBook(s.book) && Create(mode, times, s, user, req, id, now) == Ok(t)
    requires id in t.orders && t.orders[id].kind == Limit && t.orders[id].filled == 0.0
    ensures Untraded(s, t, t.orders[id], LockAmount(Effective(req)))
    ensures t.orders[id] == OrderOf(user, req, id, now).(status := Open) && Admissible(s, user, req, id, now)
    ensures t.orders[id].id == id && t.stamps == s.stamps + {Stamp(user, req.marketId, now)}
  {
    CreatedWasAdmissible(mode, times, s, user, req, id, now);
    var o, view, pair, r := CreateParts(mode, times, s, user, req, id, now, t);
    UntradedKind(mode, times, s, t, o, view, pair, r);
    UntradedRow(mode, times, s, t, o, view, pair, r);
    UntradedFunds(mode, times, s, user, req, id, now, t);
    FundedUntraded(mode, times, s, t, o, view, pair, r, LockAmount(Effective(req)));
  }

  // A limit order that meets nothing has not traded.
  lemma QuietCreation(mode: ReadMode, times: TimeRead, s: State, user: UserId, req: Request, id: OrderId, now: int,
                      t: State)
    requires LiveBook(s.book) && Create(mode, times, s, user, req, id, now) == Ok(t) && req.kind == Limit
    requires Quiet(OrderOf(user, req, id, now), LevelsFor(s, user, req, id, now))
    ensures Untraded(s, t, OrderOf(user, req, id, now).(status := Open), LockAmount(Effective(req)))
    ensures Admissible(s, user, req, id, now)
  {
    CreatedWasAdmissible(mode, times, s, user, req, id, now);
    var o, view, pair, r := CreateParts(mode, times, s, user, req, id, now, t);
    QuietRow(mode, times, s, t, o, view, pair, r);
    UntradedCreation(mode, times, s, user, req, id, now, t);
  }

  lemma QuietRow(mode: ReadMode, times: TimeRead, s: State, t: State, o: Order, view: seq<Order>, pair: Pair,
                 r: OrderResult)
    requires Parts(mode, times, s, t, o, view, pair, r) && Quiet(o, view) && o.kind == Limit
    ensures o.id in t.orders && t.orders[o.id] == o.(status := r.incoming.status)
  {
    ReadBlind(times, view);
    QuietMatch(mode, o, AllAsRead(times, view), pair, pair);
  }

  lemma FundedUntraded(mode: ReadMode, times: TimeRead, s: State, t: State, o: Order, view: seq<Order>, pair: Pair,
                       r: OrderResult, amount: real)
    requires Parts(mode, times, s, t, o, view, pair, r) && o.kind == Limit && Funded(s, t, o, amount)
    requires t.orders == s.orders[o.id := o.(status := Open)] && t.book == Insert(s.book, o.(status := Open))
    requires t.trades == s.trades
    ensures Untraded(s, t, t.orders[o.id], amount) && t.orders[o.id].id == o.id
  {
  }

  lemma UntradedKind(mode: ReadMode, times: TimeRead, s: State, t: State, o: Order, view: seq<Order>, pair: Pair,
                     r: OrderResult)
    requires Parts(mode, times, s, t, o, view, pair, r)
    ensures o.id in t.orders && t.orders[o.id].kind == o.kind
  {
    ReadBlind(times, view);
    MatchOutcome(mode, o, AllAsRead(times, view), pair);
    var rows := RowsThenLast(s.orders[o.id := o], r, o.id);
    KindsStay(s.orders[o.id := o], r.updated, o.id);
  }

  lemma {:induction false} KindsStay(rows: map<OrderId, Order>, updated: seq<Order>, incoming: OrderId)
    ensures var next := UpdateRows(rows, updated, incoming);
      next.Keys == rows.Keys && forall k :: k in rows ==> next[k].kind == rows[k].kind
    decreases |updated|
  {
    if updated != [] {
      KindsStay(if updated[0].id == incoming then rows else UpdateRow(rows, updated[0]), updated[1..], incoming);
    }
  }

  // --- Cancelling it ----------------------------------------------------------------------

  lemma UntradedAmount(o: Order, amount: real)
    requires o.filled == 0.0 && amount == (if o.side == Sell then o.quantity else o.price * o.quantity)
    ensures CancelAmount(o.(status := Cancelled)) == amount
  {
    assert o.(status := Cancelled).Remaining() == o.quantity;
  }

  // The slot that the lock was taken in is the one that the cancellation gives back to.
  predicate OwnSlot(s: State, o: Order)
    requires o.marketId in s.markets
  {
    SlotFor(o.userId, LockAsset(s.markets[o.marketId], o.side)) == CancelSlot(s.markets, o)
  }

  lemma UntradedUnlocks(s: State, t: State, o: Order, amount: real)
    requires Sound(s.funds) && Untraded(s, t, o, amount)
    ensures var done := o.(status := Cancelled);
      Unlock(t.funds, CancelSlot(t.markets, done), CancelAmount(done)) == Ok(s.funds) <==> OwnSlot(s, o)
  {
    UnlockUndoesLock(s.funds, o.userId, LockAsset(s.markets[o.marketId], o.side), amount);
    UntradedAmount(o, amount);
    if !OwnSlot(s, o) {
      OtherSlotDiffers(s.funds, SlotFor(o.userId, LockAsset(s.markets[o.marketId], o.side)), amount, t.funds,
                       CancelSlot(t.markets, o));
    }
  }

  lemma OtherSlotDiffers(f: Funds, k: Slot, amount: real, g: Funds, j: Slot)
    requires k in f.rows && g == Post(f, k, -amount, amount) && amount > 0.0 && j != k
    ensures Unlock(g, j, amount) != Ok(f)
  {
    var r := Unlock(g, j, amount);
    if r.Ok? {
      assert r.value.rows[k] == g.rows[k];
      assert g.rows[k].locked == f.rows[k].locked + amount;
    }
  }

  lemma CancelOfUntraded(orders: map<OrderId, Order>, s: State, t: State, o: Order, amount: real)
    requires Agrees(orders, s.book) && o.id !in orders
    requires Sound(s.funds) && Untraded(s, t, o, amount)
    ensures Cancel(t, o.id)
         == Ok(t.(funds := s.funds, orders := s.orders[o.id := o.(status := Cancelled)], book := s.book))
       <==> OwnSlot(s, o)
  {
    var done := o.(status := Cancelled);
    UntradedUnlocks(s, t, o, amount);
    RemoveUndoesInsert(orders, s.book, o, done);
    assert t.orders[o.id := done] == s.orders[o.id := done];
  }

  lemma OwnSlotIff(s: State, user: UserId, req: Request, id: OrderId, now: int)
    requires Admissible(s, user, req, id, now)
    ensures OwnSlot(s, OrderOf(user, req, id, now).(status := Open)) <==> LocksOwn(s, req)
  {
  }

  // A limit order that has not traded, cancelled: the balances and the book are what they
  // were before it was created, whichever way the book and its times are read, if and only
  // if its lock was taken where it is given back. Its row stays, cancelled, and so does its
  // entry in the unique index.
  lemma CancelUndoesCreate(mode: ReadMode, times: TimeRead, s: State, user: UserId, req: Request, id: OrderId, now: int,
                           t: State)
    requires Consistent(s) && LiveBook(s.book) && Create(mode, times, s, user, req, id, now) == Ok(t)
    requires id in t.orders && t.orders[id].kind == Limit && t.orders[id].filled == 0.0
    ensures Cancel(t, id) == Ok(s.(orders := s.orders[id := t.orders[id].(status := Cancelled)],
                                   stamps := s.stamps + {Stamp(user, req.marketId, now)}))
       <==> LocksOwn(s, req)
  {
    UntradedCreation(mode, times, s, user, req, id, now, t);
    CancelOfUntraded(Stored(s).orders, s, t, t.orders[id], LockAmount(Effective(req)));
    OwnSlotIff(s, user, req, id, now);
  }
}
