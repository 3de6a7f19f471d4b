// Creation times that are lost on the way through the book. As written, a level is read
// back with the zero time, and a fill that leaves it resting stores it with that time and
// at the score that goes with it. Everything but the book is blind to the times, so a step
// of the exchange as written does to the rest of the state what the intended one does to
// the state with the times that the book holds.

module ReadTimes {
  import opened Models
  import opened Ledger
  import opened Score
  import opened OrderBook
  import opened Matching
  import opened Settlement
  import opened Coverage
  import opened Exchange
  import opened Validity
  import opened Steps

  // --- Equal up to times -----------------------------------------------------------------

  predicate Blind(a: Order, b: Order) { b == a.(createdAt := b.createdAt) }

  ghost predicate BlindRows(orders: map<OrderId, Order>, rows: map<OrderId, Order>) {
    orders.Keys == rows.Keys && forall k :: k in orders ==> Blind(orders[k], rows[k])
  }

  ghost predicate BlindList(a: seq<Order>, b: seq<Order>) {
    |a| == |b| && forall i :: 0 <= i < |a| ==> Blind(a[i], b[i])
  }

  ghost predicate BlindResult(r: OrderResult, q: OrderResult) {
    r.incoming == q.incoming && r.trades == q.trades && BlindList(r.updated, q.updated)
  }

  // Two states that differ in nothing but creation times and the book.
  ghost predicate Alike(s: State, t: State) {
    && t.markets == s.markets && t.funds == s.funds && t.stamps == s.stamps && t.trades == s.trades
    && BlindRows(s.orders, t.orders)
  }

  // --- Matching is blind -------------------------------------------------------------------

  lemma BlindTails(a: seq<Order>, b: seq<Order>, x: Order, y: Order)
    requires BlindList(a, b) && a != [] && Blind(x, y)
    ensures BlindList(a[1..], b[1..]) && BlindList([x] + a[1..], [y] + b[1..])
  {
  }

  lemma BlindThen(incoming: Order, hit: Order, seen: Order, trade: Trade, r: OrderResult, q: OrderResult)
    requires BlindResult(r, q) && Blind(hit, seen)
    ensures BlindResult(Then(incoming, hit, trade, r), Then(incoming, seen, trade, q))
  {
  }

  lemma BlindNext(mode: ReadMode, view: seq<Order>, seen: seq<Order>, hit: Order, met: Order)
    requires BlindList(view, seen) && view != [] && Blind(hit, met)
    ensures BlindList(NextView(mode, view, hit), NextView(mode, seen, met))
  {
    BlindTails(view, seen, hit, met);
  }

  lemma {:induction false} QuantityBlind(mode: ReadMode, o: Order, view: seq<Order>, seen: seq<Order>, pair: Pair)
    requires Live(view) && Live(seen) && BlindList(view, seen)
    ensures BlindResult(MatchByQuantity(mode, o, view, pair), MatchByQuantity(mode, o, seen, pair))
    decreases Rounds(mode, o.Remaining(), view, Portion(view))
  {
    if o.filled < o.quantity && view != [] && Crosses(o, view[0]) {
      assert Blind(view[0], seen[0]);
      FillProgress(mode, o, view, pair);
      FillProgress(mode, o, seen, pair);
      var (incoming, hit, trade) := FillAgainstLevel(o, view[0], pair);
      var (incoming', met, trade') := FillAgainstLevel(o, seen[0], pair);
      BlindNext(mode, view, seen, hit, met);
      QuantityBlind(mode, incoming, NextView(mode, view, hit), NextView(mode, seen, met), pair);
      BlindThen(incoming, hit, met, trade, MatchByQuantity(mode, incoming, NextView(mode, view, hit), pair),
                MatchByQuantity(mode, incoming, NextView(mode, seen, met), pair));
    }
  }

  lemma BudgetRoundBlind(mode: ReadMode, o: Order, view: seq<Order>, seen: seq<Order>, pair: Pair)
    returns (incoming: Order, hit: Order, met: Order, trade: Trade, next: seq<Order>, after: seq<Order>)
    requires Live(view) && Live(seen) && BlindList(view, seen) && view != []
    requires o.price > 0.0 && o.kind == Market && o.side == Buy
    ensures Live(next) && Live(after) && BlindList(next, after) && Blind(hit, met)
    ensures incoming.kind == Market && incoming.side == Buy
    ensures MatchByBudget(mode, o, view, pair) == Then(incoming, hit, trade, MatchByBudget(mode, incoming, next, pair))
    ensures MatchByBudget(mode, o, seen, pair) == Then(incoming, met, trade, MatchByBudget(mode, incoming, after, pair))
    ensures Rounds(mode, incoming.price, next, CostPortion(next)) < Rounds(mode, o.price, view, CostPortion(view))
  {
    incoming, hit, trade, next := BudgetRoundFacts(mode, o, view, pair);
    var incoming', met', trade', next' := BudgetRoundFacts(mode, o, seen, pair);
    met, after := met', next';
    assert Blind(view[0], seen[0]);
    SameSpend(o, view[0], seen[0], pair);
    BlindNext(mode, view, seen, hit, met);
  }

  lemma SameSpend(o: Order, level: Order, seen: Order, pair: Pair)
    requires Blind(level, seen) && level.price > 0.0
    ensures var (i, h, t), (j, m, u) := FillForMarketBuy(o, level, pair), FillForMarketBuy(o, seen, pair);
      i == j && t == u && Blind(h, m)
  {
  }

  lemma {:induction false} BudgetBlind(mode: ReadMode, o: Order, view: seq<Order>, seen: seq<Order>, pair: Pair)
    requires Live(view) && Live(seen) && BlindList(view, seen) && o.kind == Market && o.side == Buy
    ensures BlindResult(MatchByBudget(mode, o, view, pair), MatchByBudget(mode, o, seen, pair))
    decreases Rounds(mode, o.price, view, CostPortion(view))
  {
    if o.price > 0.0 && view != [] {
      var incoming, hit, met, trade, next, after := BudgetRoundBlind(mode, o, view, seen, pair);
      BudgetBlind(mode, incoming, next, after, pair);
      BlindThen(incoming, hit, met, trade, MatchByBudget(mode, incoming, next, pair),
                MatchByBudget(mode, incoming, after, pair));
    }
  }

  // The times of the levels reach nothing of a match but the levels it updates.
  lemma MatchBlind(mode: ReadMode, o: Order, view: seq<Order>, seen: seq<Order>, pair: Pair)
    requires Live(view) && Live(seen) && BlindList(view, seen)
    ensures BlindResult(Match(mode, o, view, pair), Match(mode, o, seen, pair))
  {
    if o.kind == Market && o.side == Buy {
      BudgetBlind(mode, o.(quantity := INFINITE_QUANTITY), view, seen, pair);
    } else {
      QuantityBlind(mode, o, view, seen, pair);
    }
  }

  lemma ReadBlind(times: TimeRead, view: seq<Order>)
    requires Live(view)
    ensures Live(AllAsRead(times, view)) && BlindList(view, AllAsRead(times, view))
  {
  }

  // --- The tables are blind ------------------------------------------------------------------

  lemma UpdateBlind(orders: map<OrderId, Order>, rows: map<OrderId, Order>, o: Order, seen: Order)
    requires BlindRows(orders, rows) && Blind(o, seen)
    ensures BlindRows(UpdateRow(orders, o), UpdateRow(rows, seen))
  {
  }

  lemma {:induction false} UpdatesBlind(orders: map<OrderId, Order>, rows: map<OrderId, Order>, updated: seq<Order>,
                                        seen: seq<Order>, incoming: OrderId)
    requires BlindRows(orders, rows) && BlindList(updated, seen)
    ensures BlindRows(UpdateRows(orders, updated, incoming), UpdateRows(rows, seen, incoming))
    decreases |updated|
  {
    if updated != [] {
      assert Blind(updated[0], seen[0]);
      BlindTails(updated, seen, updated[0], seen[0]);
      if updated[0].id == incoming {
        UpdatesBlind(orders, rows, updated[1..], seen[1..], incoming);
      } else {
        UpdateBlind(orders, rows, updated[0], seen[0]);
        UpdatesBlind(UpdateRow(orders, updated[0]), UpdateRow(rows, seen[0]), updated[1..], seen[1..], incoming);
      }
    }
  }

  lemma {:induction false} InsertsBlind(assets: set<Asset>, orders: map<OrderId, Order>, rows: map<OrderId, Order>,
                                        trades: seq<Trade>)
    requires BlindRows(orders, rows)
    ensures InsertTrades(assets, orders, trades) == InsertTrades(assets, rows, trades)
  {
    if trades != [] {
      assert InsertTrade(assets, orders, trades[0]) == InsertTrade(assets, rows, trades[0]);
      InsertsBlind(assets, orders, rows, trades[1..]);
    }
  }

  lemma ApplyBlind(f: Funds, orders: map<OrderId, Order>, rows: map<OrderId, Order>, trades: seq<Trade>, r: OrderResult,
                   q: OrderResult, pair: Pair)
    requires BlindRows(orders, rows) && BlindResult(r, q)
    ensures var x, y := ApplyToTables(Tables(f, orders, trades), r, pair),
      ApplyToTables(Tables(f, rows, trades), q, pair);
      match x
      case Err(e) => y == Err(e)
      case Ok(a) =>
        && y.Ok? && y.value.funds == a.funds && y.value.trades == a.trades && BlindRows(a.orders, y.value.orders)
        && a.orders == RowsAfter(orders, r) && y.value.orders == RowsAfter(rows, q)
  {
    InsertsBlind(f.assets, orders, rows, r.trades);
    UpdatesBlind(orders, rows, r.updated, q.updated, r.incoming.id);
    UpdateBlind(UpdateRows(orders, r.updated, r.incoming.id), UpdateRows(rows, q.updated, r.incoming.id), r.incoming,
                q.incoming);
  }

  // --- The state with the times that the book holds ------------------------------------------

  function StoredRow(b: Book, o: Order): Order {
    if o.id in b.details then o.(createdAt := b.details[o.id].createdAt) else o
  }

  function StoredRows(b: Book, orders: map<OrderId, Order>): map<OrderId, Order> {
    map id | id in orders :: StoredRow(b, orders[id])
  }

  function Stored(s: State): State { s.(orders := StoredRows(s.book, s.orders)) }

  // The book agrees with the table up to times; and a time it holds is the row's, or the
  // zero time of an order that has been filled in part.
  ghost predicate Consistent(s: State) {
    && Valid(Stored(s))
    && forall id :: id in s.book.details && id in s.orders ==>
         || s.book.details[id].createdAt == s.orders[id].createdAt
         || (s.book.details[id].createdAt == ZERO_TIME_MILLIS && s.orders[id].status == PartiallyFilled)
  }

  lemma StoredIsAlike(s: State)
    ensures Alike(s, Stored(s))
  {
  }

  lemma ValidIsConsistent(s: State)
    requires Valid(s)
    ensures Stored(s) == s && Consistent(s)
  {
    assert StoredRows(s.book, s.orders) == s.orders;
  }

  lemma ConsistentIsLive(s: State)
    requires Consistent(s)
    ensures LiveBook(s.book)
  {
    ValidIsLive(Stored(s));
  }

  // Rows that agree with the book give the stored rows their agreement.
  lemma StoredAgrees(orders: map<OrderId, Order>, rows: map<OrderId, Order>, b: Book)
    requires Agrees(orders, b) && BlindRows(orders, rows)
    ensures Agrees(StoredRows(b, rows), b)
  {
    var stored := StoredRows(b, rows);
    forall id | id in rows
      ensures stored[id].id == id && stored[id].Resting() == orders[id].Resting()
      ensures id in b.details ==> stored[id] == orders[id]
    {
      assert Blind(orders[id], rows[id]);
    }
    forall key, e ensures Listed(stored, key, e) <==> Listed(orders, key, e) {
    }
  }

  lemma TradeBlind(orders: map<OrderId, Order>, rows: map<OrderId, Order>, t: Trade)
    requires BlindRows(orders, rows) && TradeOk(orders, t)
    ensures TradeOk(rows, t)
  {
    assert Blind(orders[t.buyOrderId], rows[t.buyOrderId]) && Blind(orders[t.sellOrderId], rows[t.sellOrderId]);
  }

  lemma ValidBlind(s: State, t: State)
    requires Valid(s) && Alike(s, t) && Agrees(t.orders, t.book)
    ensures Valid(t)
  {
    forall id | id in t.orders ensures RowOk(t.markets, id, t.orders[id]) && Cash(t.orders[id].userId) in t.funds.rows {
      assert Blind(s.orders[id], t.orders[id]) && RowOk(s.markets, id, s.orders[id]);
    }
    forall x | x in t.trades ensures TradeOk(t.orders, x) { TradeBlind(s.orders, t.orders, x); }
  }

  lemma AlikeStored(s: State, t: State)
    requires Alike(s, t)
    ensures Alike(s, Stored(t))
  {
    forall k | k in s.orders ensures Blind(s.orders[k], Stored(t).orders[k]) {
      assert Blind(s.orders[k], t.orders[k]);
    }
  }

  // --- One creation ------------------------------------------------------------------------

  ghost predicate AlikeResult(x: Result<State>, y: Result<State>) {
    match x
    case Err(e) => y == Err(e)
    case Ok(k) => y.Ok? && Alike(k, y.value)
  }

  lemma ExecuteAlike(mode: ReadMode, times: TimeRead, s: State, f: Funds, stamps: set<Stamp>, o: Order, pair: Pair)
    requires LiveBook(s.book)
    ensures AlikeResult(Execute(mode, Decoded, Stored(s), f, StoredRows(s.book, s.orders)[o.id := o], stamps, o, pair),
                        Execute(mode, times, s, f, s.orders[o.id := o], stamps, o, pair))
  {
    var view, stored := Levels(s.book, OppositeKey(o)), StoredRows(s.book, s.orders);
    ReadBlind(times, view);
    MatchBlind(mode, o, view, AllAsRead(times, view), pair);
    StoredIsAlike(s);
    assert BlindRows(stored[o.id := o], s.orders[o.id := o]);
    ApplyBlind(f, stored[o.id := o], s.orders[o.id := o], s.trades,
               Match(mode, o, view, pair), Match(mode, o, AllAsRead(times, view), pair), pair);
  }

  // A creation in either reading of the times, against the intended one on the stored state.
  lemma CreateAlike(mode: ReadMode, times: TimeRead, s: State, user: UserId, req: Request, id: OrderId, now: int)
    requires LiveBook(s.book)
    ensures AlikeResult(Create(mode, Decoded, Stored(s), user, req, id, now),
                        Create(mode, times, s, user, req, id, now))
  {
    if Checked(s.markets, req).Ok? {
      TransactAlike(mode, times, s, user, Checked(s.markets, req).value, Pair(req.base, req.quote), id, now);
    }
  }

  lemma CreateOnStored(mode: ReadMode, times: TimeRead, s: State, user: UserId, req: Request, id: OrderId, now: int,
                       t: State)
    returns (k: State)
    requires LiveBook(s.book) && Create(mode, times, s, user, req, id, now) == Ok(t)
    ensures Create(mode, Decoded, Stored(s), user, req, id, now) == Ok(k) && Alike(k, t)
  {
    CreateAlike(mode, times, s, user, req, id, now);
    k := Create(mode, Decoded, Stored(s), user, req, id, now).value;
  }

  lemma TransactAlike(mode: ReadMode, times: TimeRead, s: State, user: UserId, charge: Charge, pair: Pair, id: OrderId,
                      now: int)
    requires LiveBook(s.book)
    ensures AlikeResult(Transact(mode, Decoded, Stored(s), user, charge, pair, id, now),
                        Transact(mode, times, s, user, charge, pair, id, now))
  {
    var f := LockBalance(s.funds, user, charge.asset, charge.amount);
    var o := NewOrder(charge.req, user, id, now);
    if f.Ok? {
      InsertAlike(f.value, s, o);
      if InsertStamp(s.stamps, o, now).Ok? {
        ExecuteAlike(mode, times, s, f.value, InsertStamp(s.stamps, o, now).value, o, pair);
      }
    }
  }

  lemma InsertAlike(f: Funds, s: State, o: Order)
    ensures var x, y := InsertOrder(f, StoredRows(s.book, s.orders), o), InsertOrder(f, s.orders, o);
      if y.Ok? then x == Ok(StoredRows(s.book, s.orders)[o.id := o]) && y == Ok(s.orders[o.id := o]) else x == y
  {
  }

  // --- The book after a sweep -------------------------------------------------------------------

  // A row and a level of it: what a fill and the times leave alone.
  predicate SameTerms(a: Order, b: Order) { a == b.(status := a.status, filled := a.filled, createdAt := a.createdAt) }

  ghost predicate TermsView(orders: map<OrderId, Order>, view: seq<Order>, incoming: OrderId) {
    forall i :: 0 <= i < |view| ==>
      view[i].id in orders && view[i].id != incoming && SameTerms(orders[view[i].id], view[i])
  }

  ghost predicate Named(trades: seq<Trade>, id: OrderId) {
    exists i :: 0 <= i < |trades| && Names(trades[i], id)
  }

  // What the book stores for one order after a sweep: the level that was hit, with the time
  // that the read gave it, or what it stored before.
  ghost predicate StoredAfter(view: seq<Order>, trades: seq<Trade>, before: Order, after: Order) {
    if Named(trades, before.id) then
      (after.status == Filled || after.status == PartiallyFilled)
      && exists i :: 0 <= i < |view| && view[i].id == before.id && after.createdAt == view[i].createdAt
    else after == before
  }

  lemma FirstHitRow(taker: Taker, level: Order, trade: Trade, hit: Order, pair: Pair, orders: map<OrderId, Order>,
                    rows: map<OrderId, Order>, updated: seq<Order>)
    requires IsHit(taker, level, trade, hit, pair) && level.id != taker.id
    requires level.id in orders && SameTerms(orders[level.id], level) && BlindRows(orders, rows)
    requires |updated| >= 2 && updated[0].id == taker.id && updated[1] == hit
    ensures hit.id == level.id && KeyOf(orders[hit.id]) == KeyOf(hit)
    ensures BlindRows(orders[hit.id := hit], UpdateRow(rows, hit))
    ensures UpdateRows(rows, updated, taker.id) == UpdateRows(UpdateRow(rows, hit), updated[2..], taker.id)
    ensures forall k :: Names(trade, k) <==> k == taker.id || k == hit.id
  {
    assert updated[1..][0] == hit && updated[1..][1..] == updated[2..];
    assert Blind(orders[hit.id], rows[hit.id]);
  }

  lemma TermsTail(mode: ReadMode, orders: map<OrderId, Order>, view: seq<Order>, incoming: OrderId, hit: Order)
    requires TermsView(orders, view, incoming) && view != [] && hit.id == view[0].id && SameTerms(view[0], hit)
    ensures TermsView(orders[hit.id := hit], if mode == Stale then view else view[1..], incoming)
  {
  }

  lemma NamedSplit(trades: seq<Trade>, k: OrderId)
    requires trades != []
    ensures Named(trades, k) <==> Names(trades[0], k) || Named(trades[1..], k)
  {
    if Named(trades, k) {
      var i :| 0 <= i < |trades| && Names(trades[i], k);
      assert i > 0 ==> trades[i] == trades[1..][i - 1];
    }
    if Named(trades[1..], k) {
      var i :| 0 <= i < |trades| - 1 && Names(trades[1..][i], k);
      assert trades[i + 1] == trades[1..][i];
    }
  }

  lemma StoredThen(mode: ReadMode, view: seq<Order>, trades: seq<Trade>, before: Order, first: Order, after: Order,
                   hit: Order)
    requires trades != [] && view != [] && hit.id == view[0].id && hit.createdAt == view[0].createdAt
    requires hit.status == Filled || hit.status == PartiallyFilled
    requires Names(trades[0], before.id) <==> before.id == hit.id
    requires first == (if before.id == hit.id then hit else before)
    requires StoredAfter(if mode == Stale then view else view[1..], trades[1..], first, after)
    ensures StoredAfter(view, trades, before, after)
  {
    NamedSplit(trades, before.id);
    var tail := if mode == Stale then view else view[1..];
    if Named(trades[1..], before.id) {
      var i :| 0 <= i < |tail| && tail[i].id == before.id && after.createdAt == tail[i].createdAt;
      assert view[if mode == Stale then i else i + 1] == tail[i];
    }
  }

  ghost predicate AllStored(taker: OrderId, view: seq<Order>, trades: seq<Trade>, orders: map<OrderId, Order>,
                            next: map<OrderId, Order>) {
    && next.Keys == orders.Keys
    && (taker in orders ==> next[taker] == orders[taker])
    && forall k :: k in orders && k != taker ==> StoredAfter(view, trades, orders[k], next[k])
  }

  lemma AllStoredThen(mode: ReadMode, taker: OrderId, view: seq<Order>, trades: seq<Trade>, orders: map<OrderId, Order>,
                      first: map<OrderId, Order>, next: map<OrderId, Order>, hit: Order)
    requires Keyed(orders) && trades != [] && view != [] && hit.id == view[0].id && hit.createdAt == view[0].createdAt
    requires hit.status == Filled || hit.status == PartiallyFilled
    requires hit.id in orders && hit.id != taker && first == orders[hit.id := hit]
    requires forall k :: Names(trades[0], k) <==> k == taker || k == hit.id
    requires AllStored(taker, if mode == Stale then view else view[1..], trades[1..], first, next)
    ensures AllStored(taker, view, trades, orders, next)
  {
    forall k | k in orders && k != taker ensures StoredAfter(view, trades, orders[k], next[k]) {
      StoredThen(mode, view, trades, orders[k], first[k], next[k], hit);
    }
  }

  lemma HitAgrees(orders: map<OrderId, Order>, book: Book, hit: Order)
    requires Agrees(orders, book) && hit.id in orders && KeyOf(orders[hit.id]) == KeyOf(hit)
    requires hit.status == if Done(hit) then Filled else PartiallyFilled
    ensures Agrees(orders[hit.id := hit], Update(book, hit))
  {
    if Done(hit) { RemoveAgrees(orders, book, hit); } else { InsertAgrees(orders, book, hit); }
  }

  // The first fill of a sweep, as the book stores it and as the table records it.
  lemma FirstStored(mode: ReadMode, taker: Taker, view: seq<Order>, updated: seq<Order>, trades: seq<Trade>, pair: Pair,
                    orders: map<OrderId, Order>, rows: map<OrderId, Order>, book: Book)
    returns (hit: Order, first: map<OrderId, Order>, rest: map<OrderId, Order>, tail: seq<Order>)
    requires trades != [] && Sweeps(mode, taker, view, updated, trades, pair) && TermsView(orders, view, taker.id)
    requires BlindRows(orders, rows) && Agrees(orders, book)
    ensures view != [] && |updated| >= 2 && hit.id in orders && hit.id != taker.id && first == orders[hit.id := hit]
    ensures tail == if mode == Stale then view else view[1..]
    ensures hit.id == view[0].id && hit.createdAt == view[0].createdAt
    ensures (hit.status == Filled || hit.status == PartiallyFilled)
    ensures forall k :: Names(trades[0], k) <==> k == taker.id || k == hit.id
    ensures Sweeps(mode, taker, tail, updated[2..], trades[1..], pair) && TermsView(first, tail, taker.id)
    ensures BlindRows(first, rest) && Agrees(first, Update(book, hit))
    ensures UpdateRows(rows, updated, taker.id) == UpdateRows(rest, updated[2..], taker.id)
    ensures UpdateLevels(book, updated, taker.id) == UpdateLevels(Update(book, hit), updated[2..], taker.id)
  {
    hit := updated[1];
    first, rest, tail := orders[hit.id := hit], UpdateRow(rows, hit), if mode == Stale then view else view[1..];
    FirstHitRow(taker, view[0], trades[0], hit, pair, orders, rows, updated);
    UpdateLevelsHead(book, updated, taker.id);
    HitAgrees(orders, book, hit);
    TermsTail(mode, orders, view, taker.id, hit);
  }

  // The rows as the synced book stores them, beside the rows of the table.
  lemma {:induction false} SweepStores(mode: ReadMode, taker: Taker, view: seq<Order>, updated: seq<Order>,
                                       trades: seq<Trade>, pair: Pair, orders: map<OrderId, Order>,
                                       rows: map<OrderId, Order>, book: Book) returns (next: map<OrderId, Order>)
    requires Sweeps(mode, taker, view, updated, trades, pair) && TermsView(orders, view, taker.id)
    requires BlindRows(orders, rows) && Agrees(orders, book)
    ensures Agrees(next, UpdateLevels(book, updated, taker.id))
    ensures BlindRows(next, UpdateRows(rows, updated, taker.id)) && AllStored(taker.id, view, trades, orders, next)
    decreases |trades|
  {
    if trades == [] {
      next := orders;
      assert forall k :: !Named([], k);
    } else {
      var hit, first, rest, tail := FirstStored(mode, taker, view, updated, trades, pair, orders, rows, book);
      next := SweepStores(mode, taker, tail, updated[2..], trades[1..], pair, first, rest, Update(book, hit));
      AllStoredThen(mode, taker.id, view, trades, orders, first, next, hit);
    }
  }

  // --- A creation and the book -----------------------------------------------------------------

  // The table keeps its times.
  lemma {:induction false} TimesStay(rows: map<OrderId, Order>, updated: seq<Order>, incoming: OrderId)
    ensures var next := UpdateRows(rows, updated, incoming);
      next.Keys == rows.Keys && forall k :: k in rows ==> next[k].createdAt == rows[k].createdAt
    decreases |updated|
  {
    if updated != [] {
      TimesStay(if updated[0].id == incoming then rows else UpdateRow(rows, updated[0]), updated[1..], incoming);
    }
  }

  // The parts of a creation that went through, in either reading of the times.
  ghost predicate Parts(mode: ReadMode, times: TimeRead, s: State, t: State, o: Order, view: seq<Order>, pair: Pair,
                        r: OrderResult) {
    && o.id !in s.orders && o.status == Pending && o.filled == 0.0 && o.quantity > 0.0 && o.price >= 0.0
    && view == Levels(s.book, OppositeKey(o)) && Live(view)
    && r == Match(mode, o, AllAsRead(times, view), pair)
    && t.orders == RowsAfter(s.orders[o.id := o], r)
    && t.trades == s.trades + AllJoined(s.orders[o.id := o], r.trades)
    && t.book == ApplyToBook(s.book, r) && t.markets == s.markets
  }

  lemma CreateParts(mode: ReadMode, times: TimeRead, s: State, user: UserId, req: Request, id: OrderId, now: int,
                    t: State)
    returns (o: Order, view: seq<Order>, pair: Pair, r: OrderResult)
    requires LiveBook(s.book) && Create(mode, times, s, user, req, id, now) == Ok(t)
    ensures o == NewOrder(Effective(req), user, id, now) && pair == Pair(req.base, req.quote)
    ensures Parts(mode, times, s, t, o, view, pair, r)
  {
    var charge := Checked(s.markets, req).value;
    var f := LockBalance(s.funds, user, charge.asset, charge.amount).value;
    o, pair := NewOrder(charge.req, user, id, now), Pair(req.base, req.quote);
    view := Levels(s.book, OppositeKey(o));
    ReadBlind(times, view);
    r := Match(mode, o, AllAsRead(times, view), pair);
    InsertTradesJoins(f.assets, s.orders[id := o], r.trades);
  }

  lemma SeenTerms(times: TimeRead, s: State, o: Order, view: seq<Order>)
    requires Valid(Stored(s)) && o.id !in s.orders && view == Levels(s.book, OppositeKey(o))
    ensures TermsView(Stored(s).orders[o.id := o], AllAsRead(times, view), o.id) && Live(AllAsRead(times, view))
    ensures forall i :: 0 <= i < |view| ==>
      && AllAsRead(times, view)[i].id in s.orders && AllAsRead(times, view)[i].id in s.book.details
      && AllAsRead(times, view)[i].createdAt == HitTime(times, Stored(s).orders[AllAsRead(times, view)[i].id])
  {
    ViewRows(Stored(s), o, Stored(s).orders[o.id := o], view);
    ReadBlind(times, view);
  }

  // The time that a hit leaves in the book.
  function HitTime(times: TimeRead, stored: Order): int {
    if times == Undecoded then ZERO_TIME_MILLIS else stored.createdAt
  }

  ghost predicate NamedSince(s: State, t: State, id: OrderId) {
    exists i :: |s.trades| <= i < |t.trades| && Names(t.trades[i], id)
  }

  lemma NamedIsNamed(s: State, t: State, orders: map<OrderId, Order>, trades: seq<Trade>, k: OrderId)
    requires t.trades == s.trades + AllJoined(orders, trades)
    ensures NamedSince(s, t, k) <==> Named(trades, k)
  {
    JoinedTotals(orders, trades);
    if NamedSince(s, t, k) {
      var i :| |s.trades| <= i < |t.trades| && Names(t.trades[i], k);
      assert Names(trades[i - |s.trades|], k);
    }
    if Named(trades, k) {
      var i :| 0 <= i < |trades| && Names(trades[i], k);
      assert Names(t.trades[|s.trades| + i], k);
    }
  }

  // What the book stores of an old order after a step: whether its time is still what it
  // was depends on whether the order was hit.
  ghost predicate StoredStep(times: TimeRead, s: State, t: State, next: map<OrderId, Order>, k: OrderId)
    requires k in s.orders && k in next
  {
    var stored := StoredRow(s.book, s.orders[k]);
    if NamedSince(s, t, k) then
      && k in s.book.details && next[k].createdAt == HitTime(times, stored)
      && (next[k].status == Filled || next[k].status == PartiallyFilled)
    else next[k] == stored
  }

  lemma CreateStores(mode: ReadMode, times: TimeRead, s: State, user: UserId, req: Request, id: OrderId, now: int,
                     t: State)
    returns (next: map<OrderId, Order>)
    requires Valid(Stored(s)) && LiveBook(s.book) && Create(mode, times, s, user, req, id, now) == Ok(t)
    ensures t.orders.Keys == s.orders.Keys + {id} && id !in s.orders
    ensures BlindRows(next, t.orders) && Agrees(next, t.book) && next[id] == t.orders[id]
    ensures forall k :: k in s.orders ==>
      k in next && StoredStep(times, s, t, next, k) && t.orders[k].createdAt == s.orders[k].createdAt
  {
    var o, view, pair, r := CreateParts(mode, times, s, user, req, id, now, t);
    ReadBlind(times, view);
    MatchFacts(mode, o, AllAsRead(times, view), pair);
    PartsTimes(mode, times, s, t, o, view, pair, r);
    next := PartsStore(mode, times, s, t, o, view, pair, r);
  }

  lemma PartsTimes(mode: ReadMode, times: TimeRead, s: State, t: State, o: Order, view: seq<Order>, pair: Pair,
                   r: OrderResult)
    requires Parts(mode, times, s, t, o, view, pair, r) && r.incoming.id == o.id
    ensures t.orders.Keys == s.orders.Keys + {o.id} && t.orders[o.id].createdAt == o.createdAt
    ensures forall k :: k in s.orders ==> t.orders[k].createdAt == s.orders[k].createdAt
  {
    var rows := RowsThenLast(s.orders[o.id := o], r, o.id);
    assert s.orders[o.id := o].Keys == s.orders.Keys + {o.id};
  }

  lemma PartsStore(mode: ReadMode, times: TimeRead, s: State, t: State, o: Order, view: seq<Order>, pair: Pair,
                   r: OrderResult)
    returns (next: map<OrderId, Order>)
    requires Valid(Stored(s)) && Parts(mode, times, s, t, o, view, pair, r)
    ensures BlindRows(next, t.orders) && Agrees(next, t.book) && o.id in next && next[o.id] == t.orders[o.id]
    ensures forall k :: k in s.orders ==> k in next && StoredStep(times, s, t, next, k)
  {
    var seen := AllAsRead(times, view);
    var swept := SweptStores(mode, times, s, o, view, pair, r);
    var rows := RowsThenLast(s.orders[o.id := o], r, o.id);
    var levels := UpdateLevels(s.book, r.updated, o.id);
    next := LastStored(mode, o, seen, pair, r, swept, rows, levels);
    SweptSteps(times, s, t, o, view, r.trades, swept, next);
  }

  lemma RowsThenLast(pending: map<OrderId, Order>, r: OrderResult, id: OrderId) returns (rows: map<OrderId, Order>)
    requires r.incoming.id == id && id in pending
    ensures rows == UpdateRows(pending, r.updated, id) && RowsAfter(pending, r) == UpdateRow(rows, r.incoming)
    ensures rows.Keys == RowsAfter(pending, r).Keys == pending.Keys
    ensures forall k :: k in pending ==> RowsAfter(pending, r)[k].createdAt == rows[k].createdAt == pending[k].createdAt
  {
    rows := UpdateRows(pending, r.updated, id);
    TimesStay(pending, r.updated, id);
  }

  lemma SweptStores(mode: ReadMode, times: TimeRead, s: State, o: Order, view: seq<Order>, pair: Pair, r: OrderResult)
    returns (swept: map<OrderId, Order>)
    requires Valid(Stored(s)) && o.id !in s.orders && o.status == Pending && o.filled == 0.0 && o.quantity > 0.0
    requires o.price >= 0.0
    requires view == Levels(s.book, OppositeKey(o)) && Live(view) && r == Match(mode, o, AllAsRead(times, view), pair)
    ensures Live(AllAsRead(times, view)) && MatchedAs(mode, o, AllAsRead(times, view), pair, r)
    ensures Agrees(swept, UpdateLevels(s.book, r.updated, o.id))
    ensures BlindRows(swept, UpdateRows(s.orders[o.id := o], r.updated, o.id))
    ensures AllStored(o.id, AllAsRead(times, view), r.trades, Stored(s).orders[o.id := o], swept)
  {
    SeenTerms(times, s, o, view);
    MatchOutcome(mode, o, AllAsRead(times, view), pair);
    PendingStored(s, o);
    swept := SweepStores(mode, TakerOf(o), AllAsRead(times, view), r.updated, r.trades, pair,
                         Stored(s).orders[o.id := o], s.orders[o.id := o], s.book);
  }

  lemma PendingStored(s: State, o: Order)
    requires Valid(Stored(s)) && o.id !in s.orders && o.status == Pending
    ensures BlindRows(Stored(s).orders[o.id := o], s.orders[o.id := o])
    ensures Agrees(Stored(s).orders[o.id := o], s.book)
  {
    QuietRowAgrees(Stored(s).orders, s.book, o);
  }

  lemma SweptSteps(times: TimeRead, s: State, t: State, o: Order, view: seq<Order>, trades: seq<Trade>,
                   swept: map<OrderId, Order>, next: map<OrderId, Order>)
    requires Valid(Stored(s)) && o.id !in s.orders && view == Levels(s.book, OppositeKey(o))
    requires AllStored(o.id, AllAsRead(times, view), trades, Stored(s).orders[o.id := o], swept)
    requires next.Keys == swept.Keys && (forall k :: k in swept && k != o.id ==> next[k] == swept[k])
    requires t.trades == s.trades + AllJoined(s.orders[o.id := o], trades)
    ensures forall k :: k in s.orders ==> k in next && StoredStep(times, s, t, next, k)
  {
    forall k | k in s.orders ensures k in next && StoredStep(times, s, t, next, k) {
      NamedIsNamed(s, t, s.orders[o.id := o], trades, k);
      assert k in swept && s.orders[k].id == k;
      assert StoredAfter(AllAsRead(times, view), trades, Stored(s).orders[o.id := o][k], swept[k]);
      HitStores(times, s, o, view, trades, next[k], k);
    }
  }

  lemma HitStores(times: TimeRead, s: State, o: Order, view: seq<Order>, trades: seq<Trade>, after: Order, k: OrderId)
    requires Valid(Stored(s)) && o.id !in s.orders && view == Levels(s.book, OppositeKey(o)) && k in s.orders
    requires StoredAfter(AllAsRead(times, view), trades, StoredRow(s.book, s.orders[k]), after)
    ensures if Named(trades, k) then
              && k in s.book.details && after.createdAt == HitTime(times, StoredRow(s.book, s.orders[k]))
              && (after.status == Filled || after.status == PartiallyFilled)
            else after == StoredRow(s.book, s.orders[k])
  {
    SeenTerms(times, s, o, view);
    assert Stored(s).orders[k] == StoredRow(s.book, s.orders[k]) && s.orders[k].id == k;
  }

  // The incoming row, written last.
  lemma LastStored(mode: ReadMode, o: Order, seen: seq<Order>, pair: Pair, r: OrderResult, swept: map<OrderId, Order>,
                   rows: map<OrderId, Order>, levels: Book)
    returns (next: map<OrderId, Order>)
    requires MatchedAs(mode, o, seen, pair, r) && o.status == Pending
    requires BlindRows(swept, rows) && Agrees(swept, levels)
    requires o.id in swept && swept[o.id] == o && rows[o.id].createdAt == o.createdAt
    ensures next.Keys == swept.Keys && (forall k :: k in swept && k != o.id ==> next[k] == swept[k])
    ensures BlindRows(next, UpdateRow(rows, r.incoming)) && next[o.id] == UpdateRow(rows, r.incoming)[o.id]
    ensures Agrees(next, if r.incoming.status != Filled && r.incoming.kind == Limit
                         then Insert(levels, r.incoming) else levels)
  {
    var last := o.(status := r.incoming.status, filled := r.incoming.filled);
    next := swept[o.id := last];
    assert Blind(swept[o.id], rows[o.id]);
    if o.kind == Limit && last.status != Filled {
      InsertAgrees(swept, levels, last);
    } else {
      QuietRowAgrees(swept, levels, last);
    }
  }

  // --- Every step --------------------------------------------------------------------------------

  // What a step does to the times: the table keeps those of its rows, and the book holds of
  // an order what it held, unless the step hit the order, or created it.
  ghost predicate TimesStep(times: TimeRead, s: State, t: State) {
    && s.orders.Keys <= t.orders.Keys
    && (forall k :: k in s.orders ==> t.orders[k].createdAt == s.orders[k].createdAt)
    && (forall k :: k in t.book.details ==>
          && k in t.orders && t.orders[k].Resting() && Blind(t.orders[k], t.book.details[k])
          && if k !in s.orders then t.book.details[k] == t.orders[k]
             else
               && k in s.book.details
               && if NamedSince(s, t, k) then
                    && t.book.details[k].createdAt == HitTime(times, s.book.details[k])
                    && t.orders[k].status == PartiallyFilled
                  else
                    && t.orders[k].status == s.orders[k].status
                    && t.book.details[k].createdAt == s.book.details[k].createdAt)
  }

  lemma NextHolds(times: TimeRead, s: State, t: State, next: map<OrderId, Order>, k: OrderId)
    requires Valid(Stored(s)) && BlindRows(next, t.orders) && Agrees(next, t.book)
    requires k in t.book.details && k in s.orders && StoredStep(times, s, t, next, k)
    ensures k in t.orders && t.book.details[k] == next[k] && Blind(next[k], t.orders[k]) && next[k].Resting()
    ensures k in s.book.details
    ensures !NamedSince(s, t, k) ==> t.orders[k].status == s.orders[k].status
    ensures NamedSince(s, t, k) ==> t.orders[k].status == PartiallyFilled
  {
    assert Blind(next[k], t.orders[k]);
    assert Stored(s).orders[k] == StoredRow(s.book, s.orders[k]);
  }

  lemma NextTimes(times: TimeRead, s: State, t: State, next: map<OrderId, Order>, id: OrderId)
    requires Valid(Stored(s)) && BlindRows(next, t.orders) && Agrees(next, t.book)
    requires t.orders.Keys == s.orders.Keys + {id} && id !in s.orders && next[id] == t.orders[id]
    requires forall k :: k in s.orders ==>
      k in next && StoredStep(times, s, t, next, k) && t.orders[k].createdAt == s.orders[k].createdAt
    ensures TimesStep(times, s, t)
  {
    forall k | k in t.book.details && k in s.orders
      ensures t.orders[k].Resting() && Blind(t.orders[k], t.book.details[k])
      ensures k in s.book.details
      ensures NamedSince(s, t, k) ==>
        t.book.details[k].createdAt == HitTime(times, s.book.details[k]) && t.orders[k].status == PartiallyFilled
      ensures !NamedSince(s, t, k) ==>
        t.orders[k].status == s.orders[k].status
        && t.book.details[k].createdAt == s.book.details[k].createdAt
    {
      NextHolds(times, s, t, next, k);
    }
  }

  lemma CreatedTime(mode: ReadMode, times: TimeRead, s: State, user: UserId, req: Request, id: OrderId, now: int,
                    t: State)
    requires LiveBook(s.book) && Create(mode, times, s, user, req, id, now) == Ok(t)
    ensures t.orders.Keys == s.orders.Keys + {id} && id !in s.orders && t.orders[id].createdAt == Millis(now)
  {
    var o, view, pair, r := CreateParts(mode, times, s, user, req, id, now, t);
    ReadBlind(times, view);
    MatchFacts(mode, o, AllAsRead(times, view), pair);
    PartsTimes(mode, times, s, t, o, view, pair, r);
  }

  lemma CreateConsistent(mode: ReadMode, times: TimeRead, s: State, user: UserId, req: Request, id: OrderId, now: int,
                         t: State)
    requires Valid(Stored(s)) && LiveBook(s.book) && Create(mode, times, s, user, req, id, now) == Ok(t)
    ensures Create(mode, Decoded, Stored(s), user, req, id, now).Ok?
    ensures Alike(Create(mode, Decoded, Stored(s), user, req, id, now).value, t)
    ensures Valid(Stored(t)) && TimesStep(times, s, t)
  {
    CreateAlike(mode, times, s, user, req, id, now);
    CreateKeepsValid(mode, Stored(s), user, req, id, now);
    var next := CreateStores(mode, times, s, user, req, id, now, t);
    NextTimes(times, s, t, next, id);
    NextValid(Create(mode, Decoded, Stored(s), user, req, id, now).value, t, next);
  }

  lemma NextValid(k: State, t: State, next: map<OrderId, Order>)
    requires Valid(k) && Alike(k, t) && BlindRows(next, t.orders) && Agrees(next, t.book)
    ensures Valid(Stored(t))
  {
    StoredAgrees(next, t.orders, t.book);
    AlikeStored(k, t);
    ValidBlind(k, Stored(t));
  }

  lemma CancelConsistent(s: State, id: OrderId, t: State)
    requires Valid(Stored(s)) && Cancel(s, id) == Ok(t)
    ensures Cancel(Stored(s), id).Ok? && Alike(Cancel(Stored(s), id).value, t)
    ensures Valid(Stored(t)) && TimesStep(Decoded, s, t) && TimesStep(Undecoded, s, t)
  {
    var k := CancelAlike(s, id, t);
    CancelKeepsValid(Stored(s), id);
    NextValid(k, t, k.orders);
    CancelTimes(s, id, t);
  }

  lemma SameCancel(markets: Markets, o: Order, stored: Order)
    requires Blind(o, stored) && o.marketId in markets
    ensures CancelAmount(o) == CancelAmount(stored) && CancelSlot(markets, o) == CancelSlot(markets, stored)
  {
    assert o.Remaining() == stored.Remaining();
  }

  lemma CancelAlike(s: State, id: OrderId, t: State) returns (k: State)
    requires Cancel(s, id) == Ok(t)
    ensures Cancel(Stored(s), id) == Ok(k) && Alike(k, t) && k.book == t.book
  {
    var o := s.orders[id].(status := Cancelled);
    var stored := Stored(s).orders[id].(status := Cancelled);
    SameCancel(s.markets, o, stored);
    assert Update(s.book, o) == Update(s.book, stored);
    k := Cancel(Stored(s), id).value;
    assert BlindRows(k.orders, t.orders) by { StoredIsAlike(s); }
  }

  lemma CancelTimes(s: State, id: OrderId, t: State)
    requires Valid(Stored(s)) && Cancel(s, id) == Ok(t)
    ensures TimesStep(Decoded, s, t) && TimesStep(Undecoded, s, t)
  {
    assert t.trades == s.trades && forall j :: !NamedSince(s, t, j);
    CancelRemoves(s, id, t);
    forall j | j in t.book.details
      ensures j in s.orders && t.orders[j] == s.orders[j] && t.orders[j].Resting()
      ensures Blind(t.orders[j], t.book.details[j])
    {
      HeldIsResting(s, j);
    }
  }

  lemma CancelRemoves(s: State, id: OrderId, t: State)
    requires Valid(Stored(s)) && Cancel(s, id) == Ok(t)
    ensures t.orders == s.orders[id := s.orders[id].(status := Cancelled)] && t.book.details == s.book.details - {id}
  {
    assert Stored(s).orders[id].id == id;
  }

  lemma HeldIsResting(s: State, j: OrderId)
    requires Valid(Stored(s)) && j in s.book.details
    ensures j in s.orders && s.orders[j].Resting() && Blind(s.orders[j], s.book.details[j])
  {
    assert j in Stored(s).orders;
  }

  lemma QuietTimes(times: TimeRead, s: State, t: State)
    requires Valid(Stored(s)) && t.orders == s.orders && t.book == s.book && t.trades == s.trades
    ensures TimesStep(times, s, t)
  {
    forall j | j in s.book.details
      ensures j in s.orders && s.orders[j].Resting() && Blind(s.orders[j], s.book.details[j])
    {
      HeldIsResting(s, j);
    }
    assert forall j :: !NamedSince(s, t, j);
  }

  lemma DepositStored(s: State, user: UserId, asset: Asset, amount: real, t: State)
    requires Deposit(s, user, asset, amount) == Ok(t)
    ensures Deposit(Stored(s), user, asset, amount) == Ok(Stored(t))
    ensures t.orders == s.orders && t.book == s.book && t.trades == s.trades
  {
  }

  lemma DepositAlike(s: State, user: UserId, asset: Asset, amount: real, t: State)
    requires Valid(Stored(s)) && Deposit(s, user, asset, amount) == Ok(t)
    ensures Deposit(Stored(s), user, asset, amount).Ok? && Alike(Deposit(Stored(s), user, asset, amount).value, t)
    ensures Valid(Stored(t)) && t.orders == s.orders && t.book == s.book && t.trades == s.trades
  {
    DepositStored(s, user, asset, amount, t);
    DepositKeepsValid(Stored(s), user, asset, amount);
    StoredIsAlike(t);
  }

  lemma CancelErrAlike(s: State, id: OrderId)
    requires Valid(Stored(s))
    ensures Cancel(s, id).Ok? <==> Cancel(Stored(s), id).Ok?
  {
    if id in s.orders && s.orders[id].marketId in s.markets {
      SameCancel(s.markets, s.orders[id].(status := Cancelled), Stored(s).orders[id].(status := Cancelled));
    }
  }

  // What a step in either reading has to do with the intended one on the stored state.
  ghost predicate AlikeStep(mode: ReadMode, times: TimeRead, s: State, op: Op)
    requires LiveBook(s.book)
  {
    && Alike(Step(mode, Decoded, Stored(s), op), Step(mode, times, s, op))
    && Valid(Stored(Step(mode, times, s, op))) && TimesStep(times, s, Step(mode, times, s, op))
  }

  lemma CreateStepAlike(mode: ReadMode, times: TimeRead, s: State, user: UserId, req: Request, id: OrderId, now: int)
    requires Valid(Stored(s)) && LiveBook(s.book)
    ensures AlikeStep(mode, times, s, CreateOp(user, req, id, now))
  {
    var r := Create(mode, times, s, user, req, id, now);
    CreateAlike(mode, times, s, user, req, id, now);
    if r.Ok? {
      CreateConsistent(mode, times, s, user, req, id, now, r.value);
    } else {
      StoredIsAlike(s);
      QuietTimes(times, s, s);
    }
  }

  lemma CancelStepAlike(mode: ReadMode, times: TimeRead, s: State, id: OrderId)
    requires Valid(Stored(s)) && LiveBook(s.book)
    ensures AlikeStep(mode, times, s, CancelOp(id))
  {
    CancelErrAlike(s, id);
    if Cancel(s, id).Ok? {
      CancelConsistent(s, id, Cancel(s, id).value);
    } else {
      StoredIsAlike(s);
      QuietTimes(times, s, s);
    }
  }

  lemma DepositStepAlike(mode: ReadMode, times: TimeRead, s: State, user: UserId, asset: Asset, amount: real)
    requires Valid(Stored(s)) && LiveBook(s.book)
    ensures AlikeStep(mode, times, s, DepositOp(user, asset, amount))
  {
    var r := Deposit(s, user, asset, amount);
    if r.Ok? {
      DepositAlike(s, user, asset, amount, r.value);
      QuietTimes(times, s, r.value);
    } else {
      StoredIsAlike(s);
      QuietTimes(times, s, s);
    }
  }

  // So any step does to everything but the times what the intended reading does to the
  // state with the stored times.
  lemma StepAlike(mode: ReadMode, times: TimeRead, s: State, op: Op)
    requires Valid(Stored(s)) && LiveBook(s.book)
    ensures Alike(Step(mode, Decoded, Stored(s), op), Step(mode, times, s, op))
    ensures Valid(Stored(Step(mode, times, s, op))) && TimesStep(times, s, Step(mode, times, s, op))
  {
    match op
    case CreateOp(user, req, id, now) => CreateStepAlike(mode, times, s, user, req, id, now);
    case CancelOp(id) => CancelStepAlike(mode, times, s, id);
    case DepositOp(user, asset, amount) => DepositStepAlike(mode, times, s, user, asset, amount);
  }

  lemma StepConsistent(mode: ReadMode, times: TimeRead, s: State, op: Op)
    requires Consistent(s)
    ensures LiveBook(s.book) && Consistent(Step(mode, times, s, op))
  {
    ConsistentIsLive(s);
    StepAlike(mode, times, s, op);
    TimesConsistent(times, s, Step(mode, times, s, op));
  }

  lemma TimesConsistent(times: TimeRead, s: State, t: State)
    requires Consistent(s) && Valid(Stored(t)) && TimesStep(times, s, t)
    ensures Consistent(t)
  {
  }
}