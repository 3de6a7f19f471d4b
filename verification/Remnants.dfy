// When the agreement of the book with the table survives a creation as written: exactly
// when its match leaves no level partly filled, which can be told from the levels before it.

module Remnants {
  import opened Models
  import opened Score
  import opened OrderBook
  import opened Matching
  import opened Execution
  import opened Settlement
  import opened Exchange
  import opened Validity
  import opened Steps
  import opened ReadTimes
  import opened Runs
  import opened Uncrossed

  // --- The level that a match leaves partly filled -------------------------------------------

  predicate Spends(o: Order) { o.kind == Market && o.side == Buy }

  // What an order has to give, and what a level takes of it.
  function Wanted(o: Order): real { if Spends(o) then o.price else o.Remaining() }

  function Offered(o: Order, level: Order): real {
    if Spends(o) then level.price * level.Remaining() else level.Remaining()
  }

  predicate Whole(x: real, y: real)
    requires y != 0.0
  {
    (x / y).Floor as real == x / y
  }

  // Reading fresh it is the level in which the order ends, unless it ends with the level;
  // reading stale the one level, unless the order is a whole multiple of it.
  function Remnant(mode: ReadMode, o: Order, wanted: real, view: seq<Order>): Option<Order>
    decreases |view|
  {
    if wanted <= 0.0 || view == [] || !Crosses(o, view[0]) || Offered(o, view[0]) <= 0.0 then None
    else match mode
      case Stale => if Whole(wanted, Offered(o, view[0])) then None else Some(view[0])
      case Fresh =>
        if wanted < Offered(o, view[0]) then Some(view[0])
        else Remnant(Fresh, o, wanted - Offered(o, view[0]), view[1..])
  }

  lemma {:induction false} RemnantOf(o: Order, p: Order, mode: ReadMode, wanted: real, view: seq<Order>)
    requires TakerOf(o) == TakerOf(p) || (Spends(o) && Spends(p))
    requires o.kind == p.kind && o.side == p.side
    ensures Remnant(mode, o, wanted, view) == Remnant(mode, p, wanted, view)
    decreases |view|
  {
    if view != [] { RemnantOf(o, p, mode, wanted - Offered(o, view[0]), view[1..]); }
  }

  lemma FloorLess(q: real)
    ensures (q - 1.0).Floor == q.Floor - 1
  {
  }

  lemma WholeLess(x: real, y: real)
    requires 0.0 < y < x
    ensures Whole(x, y) <==> Whole(x - y, y)
  {
    var q := x / y;
    assert q * y == x;
    LessPortion(q, x, y);
    FloorLess(q);
  }

  lemma LessPortion(q: real, x: real, y: real)
    requires y > 0.0 && q * y == x
    ensures (x - y) / y == q - 1.0
  {
    assert (q - 1.0) * y == x - y;
    QuotientIs(q - 1.0, x - y, y);
  }

  lemma WholeWithin(x: real, y: real)
    requires 0.0 < x <= y
    ensures Whole(x, y) <==> x == y
  {
    if x == y {
      QuotientIs(1.0, x, y);
    } else {
      ProperFraction(x / y, x, y);
    }
  }

  lemma ProperFraction(q: real, x: real, y: real)
    requires 0.0 < x < y && q == x / y
    ensures 0.0 < q < 1.0
  {
    assert q * y == x;
    assert q <= 0.0 ==> q * y <= 0.0;
    assert q >= 1.0 ==> (q - 1.0) * y >= 0.0;
  }

  predicate HitIsDone(updated: seq<Order>, i: nat) { 2 * i + 1 < |updated| && Done(updated[2 * i + 1]) }

  // The hits of a match are done, but for the last where there is a remnant.
  ghost predicate LeavesRemnant(remnant: Option<Order>, updated: seq<Order>, trades: seq<Trade>) {
    && |updated| == 2 * |trades|
    && (forall i :: 0 <= i < |trades| - 1 ==> HitIsDone(updated, i))
    && match remnant
       case None => trades == [] || Done(updated[|updated| - 1])
       case Some(l) =>
         && trades != [] && !Done(updated[|updated| - 1])
         && updated[|updated| - 1].id == l.id && updated[|updated| - 1].createdAt == l.createdAt
  }

  lemma RemnantThen(remnant: Option<Order>, incoming: Order, hit: Order, trade: Trade, r: OrderResult)
    requires LeavesRemnant(remnant, r.updated, r.trades) && Done(hit)
    ensures LeavesRemnant(remnant, Then(incoming, hit, trade, r).updated, Then(incoming, hit, trade, r).trades)
  {
    var q := Then(incoming, hit, trade, r);
    forall i | 0 <= i < |q.trades| - 1 ensures HitIsDone(q.updated, i) {
      if i > 0 {
        assert HitIsDone(r.updated, i - 1);
        assert q.updated[2 * i + 1] == r.updated[2 * (i - 1) + 1];
      }
    }
  }

  lemma RemnantLast(l: Order, incoming: Order, hit: Order, trade: Trade, r: OrderResult)
    requires r.updated == [] && r.trades == [] && hit.id == l.id && hit.createdAt == l.createdAt
    ensures var q := Then(incoming, hit, trade, r);
      LeavesRemnant(if Done(hit) then None else Some(l), q.updated, q.trades)
  {
  }

  lemma {:induction false} QuantityRemnant(mode: ReadMode, o: Order, view: seq<Order>, pair: Pair)
    requires Live(view) && o.filled <= o.quantity && !Spends(o)
    ensures var r := MatchByQuantity(mode, o, view, pair);
      LeavesRemnant(Remnant(mode, o, o.Remaining(), view), r.updated, r.trades)
    decreases Rounds(mode, o.Remaining(), view, Portion(view))
  {
    if o.filled < o.quantity && view != [] && Crosses(o, view[0]) {
      assert LiveLevel(view[0]);
      if mode == Fresh { FreshRemnant(o, view, pair); } else { StaleRemnant(o, view, pair); }
    }
  }

  lemma FreshRemnant(o: Order, view: seq<Order>, pair: Pair)
    requires Live(view) && view != [] && LiveLevel(view[0]) && o.filled < o.quantity && Crosses(o, view[0])
    requires !Spends(o)
    ensures var r := MatchByQuantity(Fresh, o, view, pair);
      LeavesRemnant(Remnant(Fresh, o, o.Remaining(), view), r.updated, r.trades)
    decreases Rounds(Fresh, o.Remaining(), view, Portion(view)), 0
  {
    var incoming, hit, trade, next := FreshRound(o, view, pair);
    var r := MatchByQuantity(Fresh, incoming, next, pair);
    FreshUnfolds(o, o.Remaining(), view);
    if Done(hit) {
      QuantityRemnant(Fresh, incoming, view[1..], pair);
      RemnantOf(o, incoming, Fresh, incoming.Remaining(), view[1..]);
      RemnantThen(Remnant(Fresh, incoming, incoming.Remaining(), view[1..]), incoming, hit, trade, r);
    } else {
      assert r == OrderResult(incoming, [], [], next);
      RemnantLast(view[0], incoming, hit, trade, r);
    }
  }

  lemma FreshUnfolds(o: Order, wanted: real, view: seq<Order>)
    requires view != [] && LiveLevel(view[0]) && Crosses(o, view[0]) && !Spends(o) && wanted > 0.0
    ensures var left := view[0].Remaining();
      Remnant(Fresh, o, wanted, view)
           == if wanted < left then Some(view[0]) else Remnant(Fresh, o, wanted - left, view[1..])
  {
  }

  lemma StaleUnfolds(o: Order, wanted: real, view: seq<Order>)
    requires view != [] && LiveLevel(view[0]) && Crosses(o, view[0]) && !Spends(o) && wanted > 0.0
    ensures Remnant(Stale, o, wanted, view) == if Whole(wanted, view[0].Remaining()) then None else Some(view[0])
  {
  }

  lemma StaleRemnant(o: Order, view: seq<Order>, pair: Pair)
    requires Live(view) && view != [] && LiveLevel(view[0]) && o.filled < o.quantity && Crosses(o, view[0])
    requires !Spends(o)
    ensures var r := MatchByQuantity(Stale, o, view, pair);
      LeavesRemnant(Remnant(Stale, o, o.Remaining(), view), r.updated, r.trades)
    decreases Rounds(Stale, o.Remaining(), view, Portion(view)), 0
  {
    var incoming, hit, trade := StaleRound(o, view, pair);
    var r := MatchByQuantity(Stale, incoming, view, pair);
    StaleUnfolds(o, o.Remaining(), view);
    if incoming.filled < incoming.quantity {
      QuantityRemnant(Stale, incoming, view, pair);
      StaleUnfolds(incoming, incoming.Remaining(), view);
      WholeLess(o.Remaining(), view[0].Remaining());
      RemnantThen(Remnant(Stale, incoming, incoming.Remaining(), view), incoming, hit, trade, r);
    } else {
      WholeWithin(o.Remaining(), view[0].Remaining());
      RemnantLast(view[0], incoming, hit, trade, r);
    }
  }

  lemma {:induction false} BudgetRemnant(mode: ReadMode, o: Order, view: seq<Order>, pair: Pair)
    requires Live(view) && o.price >= 0.0 && Spends(o)
    ensures var r := MatchByBudget(mode, o, view, pair);
      LeavesRemnant(Remnant(mode, o, o.price, view), r.updated, r.trades)
    decreases Rounds(mode, o.price, view, CostPortion(view))
  {
    if o.price > 0.0 && view != [] {
      assert LiveLevel(view[0]);
      var incoming, hit, trade, next := SpendRound(mode, o, view, pair);
      var r := MatchByBudget(mode, incoming, next, pair);
      if incoming.price > 0.0 {
        BudgetRemnant(mode, incoming, next, pair);
        RemnantOf(o, incoming, mode, incoming.price, next);
        RemnantSteps(mode, o, incoming.price, view);
        RemnantThen(Remnant(mode, incoming, incoming.price, next), incoming, hit, trade, r);
      } else {
        RemnantEnds(mode, o, view);
        RemnantLast(view[0], incoming, hit, trade, r);
      }
    }
  }

  // One round of a market buy, its remnant in mind.
  lemma SpendRound(mode: ReadMode, o: Order, view: seq<Order>, pair: Pair)
    returns (incoming: Order, hit: Order, trade: Trade, next: seq<Order>)
    requires Live(view) && view != [] && LiveLevel(view[0]) && o.price > 0.0 && Spends(o)
    ensures Spends(incoming) && incoming.price >= 0.0 && Live(next) && hit.id == view[0].id
    ensures hit.createdAt == view[0].createdAt
    ensures MatchByBudget(mode, o, view, pair) == Then(incoming, hit, trade, MatchByBudget(mode, incoming, next, pair))
    ensures Rounds(mode, incoming.price, next, CostPortion(next)) < Rounds(mode, o.price, view, CostPortion(view))
    ensures Offered(o, view[0]) > 0.0
    ensures if o.price < Offered(o, view[0]) then incoming.price == 0.0 && !Done(hit)
            else incoming.price == o.price - Offered(o, view[0]) && Done(hit)
    ensures incoming.price > 0.0 ==> next == if mode == Stale then view else view[1..]
  {
    incoming, hit, trade, next := BudgetRoundFacts(mode, o, view, pair);
    SpendSplits(o, view[0], pair, incoming, hit, trade);
  }

  lemma SpendSplits(o: Order, level: Order, pair: Pair, incoming: Order, hit: Order, trade: Trade)
    requires LiveLevel(level) && o.price > 0.0 && Spends(o)
    requires (incoming, hit, trade) == FillForMarketBuy(o, level, pair)
    ensures Offered(o, level) > 0.0 && hit.id == level.id && hit.createdAt == level.createdAt
    ensures if o.price < Offered(o, level) then incoming.price == 0.0 && !Done(hit)
            else incoming.price == o.price - Offered(o, level) && Done(hit)
  {
    SpendFacts(o, level, pair);
  }

  lemma RemnantSteps(mode: ReadMode, o: Order, left: real, view: seq<Order>)
    requires view != [] && Spends(o) && Offered(o, view[0]) > 0.0 && 0.0 < left == o.price - Offered(o, view[0])
    ensures Remnant(mode, o, o.price, view) == Remnant(mode, o, left, if mode == Stale then view else view[1..])
  {
    WholeLess(o.price, Offered(o, view[0]));
  }

  lemma RemnantEnds(mode: ReadMode, o: Order, view: seq<Order>)
    requires view != [] && Spends(o) && 0.0 < o.price <= Offered(o, view[0])
    ensures Remnant(mode, o, o.price, view) == if o.price < Offered(o, view[0]) then Some(view[0]) else None
  {
    WholeWithin(o.price, Offered(o, view[0]));
  }

  lemma MatchRemnant(mode: ReadMode, o: Order, view: seq<Order>, pair: Pair)
    requires Live(view) && o.filled == 0.0 && o.quantity > 0.0 && o.price >= 0.0
    ensures var r := Match(mode, o, view, pair); LeavesRemnant(Remnant(mode, o, Wanted(o), view), r.updated, r.trades)
  {
    if Spends(o) {
      var p := o.(quantity := INFINITE_QUANTITY);
      BudgetRemnant(mode, p, view, pair);
      RemnantOf(o, p, mode, o.price, view);
    } else {
      QuantityRemnant(mode, o, view, pair);
    }
  }

  // --- The rows that a match leaves resting ------------------------------------------------------

  // The first fill taken off a sweep over the rows of the table.
  lemma FirstRow(mode: ReadMode, taker: Taker, view: seq<Order>, updated: seq<Order>, trades: seq<Trade>, pair: Pair,
                 rows: map<OrderId, Order>)
    returns (hit: Order, first: map<OrderId, Order>, tail: seq<Order>)
    requires trades != [] && Sweeps(mode, taker, view, updated, trades, pair) && TermsView(rows, view, taker.id)
    requires Keyed(rows)
    ensures |updated| >= 2 && hit == updated[1] && hit.id in rows && hit.id != taker.id
    ensures hit.Resting() <==> !Done(hit)
    ensures first == UpdateRow(rows, hit) && first.Keys == rows.Keys && Keyed(first)
    ensures first[hit.id].Resting() <==> hit.Resting()
    ensures tail == if mode == Stale then view else view[1..]
    ensures Sweeps(mode, taker, tail, updated[2..], trades[1..], pair) && TermsView(first, tail, taker.id)
    ensures UpdateRows(rows, updated, taker.id) == UpdateRows(first, updated[2..], taker.id)
    ensures forall k :: Names(trades[0], k) <==> k == taker.id || k == hit.id
  {
    hit := updated[1];
    first, tail := UpdateRow(rows, hit), if mode == Stale then view else view[1..];
    assert updated[1..][0] == hit && updated[1..][1..] == updated[2..];
    assert SameTerms(rows[hit.id], hit);
  }

  lemma {:induction false} UnnamedStay(mode: ReadMode, taker: Taker, view: seq<Order>, updated: seq<Order>,
                                       trades: seq<Trade>, pair: Pair, rows: map<OrderId, Order>, k: OrderId)
    requires Sweeps(mode, taker, view, updated, trades, pair) && TermsView(rows, view, taker.id) && Keyed(rows)
    requires k in rows && !Named(trades, k)
    ensures k in UpdateRows(rows, updated, taker.id) && UpdateRows(rows, updated, taker.id)[k] == rows[k]
    decreases |trades|
  {
    if trades != [] {
      var hit, first, tail := FirstRow(mode, taker, view, updated, trades, pair, rows);
      NamedSplit(trades, k);
      UnnamedStay(mode, taker, tail, updated[2..], trades[1..], pair, first, k);
    }
  }

  // Of the rows that were hit only the last can still rest, and does unless it is done.
  ghost predicate OnlyLastRests(rows: map<OrderId, Order>, next: map<OrderId, Order>, last: Order, trades: seq<Trade>,
                                taker: OrderId) {
    && last.id in rows && last.id in next && last.id != taker && Named(trades, last.id)
    && (next[last.id].Resting() <==> !Done(last))
    && forall k :: k in rows && k in next && k != taker && Named(trades, k) && next[k].Resting() ==> k == last.id
  }

  lemma {:induction false} RestingHits(mode: ReadMode, taker: Taker, view: seq<Order>, updated: seq<Order>,
                                       trades: seq<Trade>, pair: Pair, rows: map<OrderId, Order>)
    requires Sweeps(mode, taker, view, updated, trades, pair) && TermsView(rows, view, taker.id) && Keyed(rows)
    requires trades != [] && |updated| == 2 * |trades| && forall i :: 0 <= i < |trades| - 1 ==> HitIsDone(updated, i)
    ensures OnlyLastRests(rows, UpdateRows(rows, updated, taker.id), updated[|updated| - 1], trades, taker.id)
    decreases |trades|
  {
    var hit, first, tail := FirstRow(mode, taker, view, updated, trades, pair, rows);
    if |trades| == 1 {
      assert updated[2..] == [] && Names(trades[0], hit.id);
    } else {
      DoneTail(updated, |trades|);
      RestingHits(mode, taker, tail, updated[2..], trades[1..], pair, first);
      RestingHitsThen(mode, taker, tail, updated[2..], trades, pair, rows, first, hit);
    }
  }

  lemma DoneTail(updated: seq<Order>, n: nat)
    requires n > 1 && |updated| == 2 * n && forall i :: 0 <= i < n - 1 ==> HitIsDone(updated, i)
    ensures Done(updated[1]) && updated[2..][|updated| - 3] == updated[|updated| - 1]
    ensures forall i :: 0 <= i < n - 2 ==> HitIsDone(updated[2..], i)
  {
    assert HitIsDone(updated, 0);
    forall i | 0 <= i < n - 2 ensures HitIsDone(updated[2..], i) {
      assert HitIsDone(updated, i + 1);
      assert updated[2..][2 * i + 1] == updated[2 * (i + 1) + 1];
    }
  }

  lemma RestingHitsThen(mode: ReadMode, taker: Taker, tail: seq<Order>, more: seq<Order>, trades: seq<Trade>,
                        pair: Pair, rows: map<OrderId, Order>, first: map<OrderId, Order>, hit: Order)
    requires trades != [] && more != [] && first.Keys == rows.Keys && Keyed(first) && hit.id in rows
    requires !first[hit.id].Resting()
    requires forall k :: Names(trades[0], k) <==> k == taker.id || k == hit.id
    requires Sweeps(mode, taker, tail, more, trades[1..], pair) && TermsView(first, tail, taker.id)
    requires OnlyLastRests(first, UpdateRows(first, more, taker.id), more[|more| - 1], trades[1..], taker.id)
    ensures OnlyLastRests(rows, UpdateRows(first, more, taker.id), more[|more| - 1], trades, taker.id)
  {
    var next, last := UpdateRows(first, more, taker.id), more[|more| - 1];
    NamedSplit(trades, last.id);
    forall k | k in rows && k in next && k != taker.id && Named(trades, k) && next[k].Resting() ensures k == last.id {
      NamedSplit(trades, k);
      if !Named(trades[1..], k) { UnnamedStay(mode, taker, tail, more, trades[1..], pair, first, k); }
    }
  }

  // --- One creation --------------------------------------------------------------------------------

  lemma {:induction false} RemnantBlind(mode: ReadMode, o: Order, wanted: real, view: seq<Order>, seen: seq<Order>)
    requires BlindList(view, seen)
    ensures match Remnant(mode, o, wanted, view)
      case None => Remnant(mode, o, wanted, seen) == None
      case Some(l) => Remnant(mode, o, wanted, seen).Some? && Blind(l, Remnant(mode, o, wanted, seen).value)
    decreases |view|
  {
    if view != [] {
      assert Blind(view[0], seen[0]);
      BlindTails(view, seen, view[0], seen[0]);
      assert Offered(o, view[0]) == Offered(o, seen[0]) && Crosses(o, view[0]) == Crosses(o, seen[0]);
      RemnantBlind(mode, o, wanted - Offered(o, view[0]), view[1..], seen[1..]);
    }
  }

  function RemnantFor(mode: ReadMode, s: State, user: UserId, req: Request, id: OrderId, now: int): Option<Order> {
    var o := OrderOf(user, req, id, now);
    Remnant(mode, o, Wanted(o), LevelsFor(s, user, req, id, now))
  }

  // Of the old orders that the step hit, the remnant rests after it, and no other.
  ghost predicate RestsAfter(s: State, t: State, remnant: Option<Order>) {
    && (forall k :: k in s.orders && k in t.orders && NamedSince(s, t, k) && t.orders[k].Resting() ==>
          remnant.Some? && k == remnant.value.id)
    && (remnant.Some? ==>
          && remnant.value.id in s.orders && remnant.value.id in t.orders
          && NamedSince(s, t, remnant.value.id) && t.orders[remnant.value.id].Resting())
  }

  lemma RowTerms(times: TimeRead, s: State, o: Order, view: seq<Order>)
    requires Valid(Stored(s)) && o.id !in s.orders && view == Levels(s.book, OppositeKey(o))
    ensures TermsView(s.orders[o.id := o], AllAsRead(times, view), o.id) && Keyed(s.orders[o.id := o])
  {
    SeenTerms(times, s, o, view);
    StoredIsAlike(s);
    forall k | k in s.orders ensures s.orders[k].id == k { assert Blind(s.orders[k], Stored(s).orders[k]); }
    var seen := AllAsRead(times, view);
    forall i | 0 <= i < |seen| ensures seen[i].id in s.orders && SameTerms(s.orders[seen[i].id], seen[i]) {
      assert Blind(s.orders[seen[i].id], Stored(s).orders[seen[i].id]);
    }
  }

  lemma PartsRest(mode: ReadMode, times: TimeRead, s: State, t: State, o: Order, view: seq<Order>, pair: Pair,
                  r: OrderResult)
    requires Valid(Stored(s)) && Parts(mode, times, s, t, o, view, pair, r) && r.incoming.id == o.id
    requires Sweeps(mode, TakerOf(o), AllAsRead(times, view), r.updated, r.trades, pair)
    ensures RestsAfter(s, t, Remnant(mode, o, Wanted(o), view))
  {
    var seen := AllAsRead(times, view);
    ReadBlind(times, view);
    MatchRemnant(mode, o, seen, pair);
    RemnantBlind(mode, o, Wanted(o), view, seen);
    RowTerms(times, s, o, view);
    RowsRest(mode, s, t, o, seen, pair, r, Remnant(mode, o, Wanted(o), seen));
  }

  lemma RowsRest(mode: ReadMode, s: State, t: State, o: Order, seen: seq<Order>, pair: Pair, r: OrderResult,
                 remnant: Option<Order>)
    requires o.id !in s.orders && r.incoming.id == o.id && t.orders == RowsAfter(s.orders[o.id := o], r)
    requires t.trades == s.trades + AllJoined(s.orders[o.id := o], r.trades)
    requires Sweeps(mode, TakerOf(o), seen, r.updated, r.trades, pair) && LeavesRemnant(remnant, r.updated, r.trades)
    requires TermsView(s.orders[o.id := o], seen, o.id) && Keyed(s.orders[o.id := o])
    ensures RestsAfter(s, t, remnant)
  {
    var pending := s.orders[o.id := o];
    var rows := RowsThenLast(pending, r, o.id);
    forall k ensures NamedSince(s, t, k) <==> Named(r.trades, k) { NamedIsNamed(s, t, pending, r.trades, k); }
    if r.trades != [] {
      RestingHits(mode, TakerOf(o), seen, r.updated, r.trades, pair, pending);
      LastRests(s, t, o, pending, rows, r, remnant);
    } else {
      assert forall k :: !Named(r.trades, k);
    }
  }

  lemma LastRests(s: State, t: State, o: Order, pending: map<OrderId, Order>, rows: map<OrderId, Order>, r: OrderResult,
                  remnant: Option<Order>)
    requires o.id !in s.orders && pending == s.orders[o.id := o] && r.incoming.id == o.id && r.trades != []
    requires t.orders == UpdateRow(rows, r.incoming) && rows.Keys == pending.Keys
    requires forall k :: NamedSince(s, t, k) <==> Named(r.trades, k)
    requires LeavesRemnant(remnant, r.updated, r.trades)
    requires OnlyLastRests(pending, rows, r.updated[|r.updated| - 1], r.trades, o.id)
    ensures RestsAfter(s, t, remnant)
  {
  }

  lemma CreateRests(mode: ReadMode, times: TimeRead, s: State, user: UserId, req: Request, id: OrderId, now: int,
                    t: State)
    requires Valid(Stored(s)) && LiveBook(s.book) && Create(mode, times, s, user, req, id, now) == Ok(t)
    ensures RestsAfter(s, t, RemnantFor(mode, s, user, req, id, now))
  {
    var o, view, pair, r := CreateParts(mode, times, s, user, req, id, now, t);
    ReadBlind(times, view);
    MatchFacts(mode, o, AllAsRead(times, view), pair);
    PartsRest(mode, times, s, t, o, view, pair, r);
  }

  // --- When agreement survives -----------------------------------------------------------------------

  lemma HeldTimesAgree(t: State)
    requires Valid(Stored(t))
    ensures Agrees(t.orders, t.book) <==>
      forall id :: id in t.book.details ==> id in t.orders && t.book.details[id] == t.orders[id]
  {
    if forall id :: id in t.book.details ==> id in t.orders && t.book.details[id] == t.orders[id] {
      StoredIsAlike(t);
      forall id | id in t.orders ensures Stored(t).orders[id] == t.orders[id] {
        assert Blind(t.orders[id], Stored(t).orders[id]);
        assert Stored(t).orders[id] == StoredRow(t.book, t.orders[id]);
      }
      assert Stored(t).orders == t.orders;
    }
  }

  // A state in agreement, after a step as written: what the book holds of each order is its
  // row, but for the remnant, of which it holds the zero time.
  function HeldRow(t: State, remnant: Option<Order>, k: OrderId): Order
    requires k in t.orders
  {
    if remnant.Some? && k == remnant.value.id then t.orders[k].(createdAt := ZERO_TIME_MILLIS) else t.orders[k]
  }

  lemma HeldAfter(s: State, t: State, remnant: Option<Order>, k: OrderId)
    requires Valid(s) && TimesStep(Undecoded, s, t) && RestsAfter(s, t, remnant) && k in t.book.details
    ensures k in t.orders
    ensures t.book.details[k] == HeldRow(t, remnant, k)
  {
    assert Blind(t.orders[k], t.book.details[k]);
    if k in s.orders {
      assert k in s.book.details ==> s.book.details[k] == s.orders[k];
    }
  }

  // The remnant is an old row, resting, with its time.
  lemma RemnantIsHeld(s: State, t: State, remnant: Order)
    requires Valid(s) && Valid(Stored(t)) && TimesStep(Undecoded, s, t) && RestsAfter(s, t, Some(remnant))
    ensures remnant.id in t.book.details && remnant.id in s.orders
    ensures t.orders[remnant.id].createdAt == s.orders[remnant.id].createdAt
  {
    StoredIsAlike(t);
    assert Blind(t.orders[remnant.id], Stored(t).orders[remnant.id]);
  }

  lemma AgreesIff(s: State, t: State, remnant: Option<Order>)
    requires Valid(s) && Valid(Stored(t)) && TimesStep(Undecoded, s, t) && RestsAfter(s, t, remnant)
    ensures Agrees(t.orders, t.book)
       <==> remnant.None? || (remnant.value.id in s.orders && s.orders[remnant.value.id].createdAt == ZERO_TIME_MILLIS)
  {
    HeldTimesAgree(t);
    forall k | k in t.book.details
      ensures k in t.orders
      ensures t.book.details[k] == HeldRow(t, remnant, k)
    {
      HeldAfter(s, t, remnant, k);
    }
    if remnant.Some? { RemnantIsHeld(s, t, remnant.value); }
  }

  lemma RemnantIsRow(mode: ReadMode, s: State, user: UserId, req: Request, id: OrderId, now: int)
    requires Valid(s) && LiveBook(s.book)
    ensures var remnant := RemnantFor(mode, s, user, req, id, now);
      remnant.Some? ==> remnant.value.id in s.orders && s.orders[remnant.value.id] == remnant.value
  {
    var o, view := OrderOf(user, req, id, now), LevelsFor(s, user, req, id, now);
    LevelsAreListing(s.orders, s.book, OppositeKey(o));
    RemnantIsLevel(mode, o, Wanted(o), view);
  }

  lemma {:induction false} RemnantIsLevel(mode: ReadMode, o: Order, wanted: real, view: seq<Order>)
    ensures Remnant(mode, o, wanted, view).Some? ==> Remnant(mode, o, wanted, view).value in view
    decreases |view|
  {
    if view != [] { RemnantIsLevel(mode, o, wanted - Offered(o, view[0]), view[1..]); }
  }

  // From a book in agreement, a creation as written leaves one in agreement if and only if
  // its match leaves no level partly filled, or only one that had the zero time already.
  lemma CreateAgreesIff(mode: ReadMode, s: State, user: UserId, req: Request, id: OrderId, now: int, t: State)
    requires Valid(s) && LiveBook(s.book) && Create(mode, Undecoded, s, user, req, id, now) == Ok(t)
    ensures var remnant := RemnantFor(mode, s, user, req, id, now);
      Agrees(t.orders, t.book) <==> remnant.None? || remnant.value.createdAt == ZERO_TIME_MILLIS
  {
    ValidIsConsistent(s);
    CreateConsistent(mode, Undecoded, s, user, req, id, now, t);
    CreateRests(mode, Undecoded, s, user, req, id, now, t);
    RemnantIsRow(mode, s, user, req, id, now);
    AgreesIff(s, t, RemnantFor(mode, s, user, req, id, now));
  }

  // --- Creations that leave no remnant -------------------------------------------------------------------

  lemma SameRows(s: State, k: State, t: State, id: OrderId)
    requires Alike(k, t) && TimesStep(Decoded, s, k) && TimesStep(Undecoded, s, t)
    requires k.orders.Keys == s.orders.Keys + {id} && k.orders[id].createdAt == t.orders[id].createdAt
    ensures k.orders == t.orders
  {
    forall j | j in k.orders ensures k.orders[j] == t.orders[j] { assert Blind(k.orders[j], t.orders[j]); }
  }

  // Then the creation as written and the one with the times decoded are the same.
  lemma NoRemnantSame(mode: ReadMode, s: State, user: UserId, req: Request, id: OrderId, now: int)
    requires Valid(s) && LiveBook(s.book) && RemnantFor(mode, s, user, req, id, now).None?
    ensures Create(mode, Undecoded, s, user, req, id, now) == Create(mode, Decoded, s, user, req, id, now)
  {
    ValidIsConsistent(s);
    CreateAlike(mode, Undecoded, s, user, req, id, now);
    if Create(mode, Undecoded, s, user, req, id, now).Ok? {
      var t := Create(mode, Undecoded, s, user, req, id, now).value;
      var k := CreateOnStored(mode, Undecoded, s, user, req, id, now, t);
      CreateAgreesIff(mode, s, user, req, id, now, t);
      BothCreate(mode, s, user, req, id, now, k, t);
      AgreementIsUnique(t.orders, t.book, k.book);
    }
  }

  lemma BothCreate(mode: ReadMode, s: State, user: UserId, req: Request, id: OrderId, now: int, k: State, t: State)
    requires Valid(s) && LiveBook(s.book) && Alike(k, t)
    requires Create(mode, Undecoded, s, user, req, id, now) == Ok(t)
    requires Create(mode, Decoded, s, user, req, id, now) == Ok(k)
    ensures k.orders == t.orders && Agrees(k.orders, k.book)
  {
    ValidIsConsistent(s);
    CreateConsistent(mode, Undecoded, s, user, req, id, now, t);
    CreateConsistent(mode, Decoded, s, user, req, id, now, k);
    CreatedTime(mode, Undecoded, s, user, req, id, now, t);
    CreatedTime(mode, Decoded, s, user, req, id, now, k);
    SameRows(s, k, t, id);
    CreateKeepsValid(mode, s, user, req, id, now);
  }

  // The synced book then serves, on the side that was traded against, exactly the view with
  // which the fresh match ended, whichever way the times are read.
  lemma SyncedServesRest(times: TimeRead, s: State, user: UserId, req: Request, id: OrderId, now: int, t: State)
    requires Valid(s) && LiveBook(s.book) && Create(Fresh, times, s, user, req, id, now) == Ok(t)
    requires Live(LevelsFor(s, user, req, id, now))
    requires times == Decoded || RemnantFor(Fresh, s, user, req, id, now).None?
    ensures var o := OrderOf(user, req, id, now);
      Levels(t.book, OppositeKey(o))
        == Match(Fresh, o, LevelsFor(s, user, req, id, now), Pair(req.base, req.quote)).rest
  {
    if times == Undecoded { NoRemnantSame(Fresh, s, user, req, id, now); }
    SyncedBookServesRest(s, user, req, id, now, t);
  }

  predicate LeavesNone(mode: ReadMode, s: State, op: Op) {
    match op
    case CreateOp(user, req, id, now) => RemnantFor(mode, s, user, req, id, now).None?
    case _ => true
  }

  ghost predicate LeavesNoneRun(mode: ReadMode, s: State, ops: seq<Op>)
    requires Valid(s)
    decreases |ops|
  {
    ops == [] || (
      StepKeepsValid(mode, s, ops[0]);
      LeavesNone(mode, s, ops[0]) && LeavesNoneRun(mode, Step(mode, Decoded, s, ops[0]), ops[1..]))
  }

  // On a run of such creations the times are never missed: the book stays in agreement, and
  // all that is proved with the times decoded holds as written.
  lemma {:induction false} LeavesNoneRunsAgree(mode: ReadMode, s: State, ops: seq<Op>)
    requires Valid(s) && LeavesNoneRun(mode, s, ops)
    ensures Consistent(s) && Run(mode, Undecoded, s, ops) == Run(mode, Decoded, s, ops)
    ensures Valid(Run(mode, Decoded, s, ops))
    decreases |ops|
  {
    ValidIsConsistent(s);
    if ops != [] {
      StepKeepsValid(mode, s, ops[0]);
      StepConsistent(mode, Decoded, s, ops[0]);
      StepConsistent(mode, Undecoded, s, ops[0]);
      LeavesNoneStep(mode, s, ops[0]);
      LeavesNoneRunsAgree(mode, Step(mode, Decoded, s, ops[0]), ops[1..]);
    }
  }

  lemma LeavesNoneStep(mode: ReadMode, s: State, op: Op)
    requires Valid(s) && LiveBook(s.book) && LeavesNone(mode, s, op)
    ensures Step(mode, Undecoded, s, op) == Step(mode, Decoded, s, op)
  {
    if op.CreateOp? { NoRemnantSame(mode, s, op.user, op.req, op.id, op.now); }
  }

  // In particular it is never crossed on such a run, however small the tick.
  lemma LeavesNoneRunUncrossed(mode: ReadMode, s: State, ops: seq<Op>, tick: real, start: int, span: int)
    requires OnGrid(Decoded, s, ops, tick, start, span) && LeavesNoneRun(mode, s, ops)
    ensures var t := Run(mode, Undecoded, s, ops);
      && IsUncrossed(t.orders)
      && forall key: BookKey :: PriceOrdered(key.side, Levels(t.book, key))
  {
    LeavesNoneRunsAgree(mode, s, ops);
    RunUncrossed(mode, Decoded, s, ops, tick, start, span);
  }
}
