// The book is never crossed, and the view a fresh match ends with is what the synced
// book serves next.

module Uncrossed {
  import opened Models
  import opened Score
  import opened OrderBook
  import opened Matching
  import opened Execution
  import opened Settlement
  import opened Coverage
  import opened Exchange
  import opened Validity
  import opened Steps
  import opened ReadTimes
  import opened Runs
  import opened Creations
  import opened Accounting

  // --- The synced book and the fresh view ------------------------------------------------

  // What the next read serves, level by level.
  lemma NextLevels(view: seq<Order>, hit: Order, i: nat)
    requires view != [] && i < |NextView(Fresh, view, hit)|
    ensures var skip, next := if Done(hit) then 1 else 0, NextView(Fresh, view, hit);
      i + skip < |view| && next[i] == if i + skip == 0 then hit else view[i + skip]
  {
  }

  lemma HitRowsListed(orders: map<OrderId, Order>, key: BookKey, view: seq<Order>, hit: Order, i: nat)
    requires IsListing(orders, key, view) && DistinctIds(view) && view != [] && IsBump(view[0], hit)
    requires i < |NextView(Fresh, view, hit)|
    ensures var rows, o := orders[hit.id := hit], NextView(Fresh, view, hit)[i];
      o.id in rows && rows[o.id] == o && o.Resting() && KeyOf(o) == key
  {
    NextLevels(view, hit, i);
  }

  lemma HitRestingServed(orders: map<OrderId, Order>, key: BookKey, view: seq<Order>, hit: Order, id: OrderId)
    requires IsListing(orders, key, view) && Keyed(orders) && view != [] && IsBump(view[0], hit)
    requires var rows := orders[hit.id := hit]; id in rows && rows[id].Resting() && KeyOf(rows[id]) == key
    ensures orders[hit.id := hit][id] in NextView(Fresh, view, hit)
  {
    var next := NextView(Fresh, view, hit);
    if id == hit.id {
      assert next[0] == hit;
    } else {
      var j :| 0 <= j < |view| && view[j] == orders[id];
      assert j != 0;
      assert next[if Done(hit) then j - 1 else j] == view[j];
    }
  }

  lemma HitOrdered(key: BookKey, view: seq<Order>, hit: Order, i: nat, j: nat)
    requires view != [] && IsBump(view[0], hit) && i < j < |NextView(Fresh, view, hit)|
    requires forall a, b :: 0 <= a < b < |view| ==> Ahead(key.side, view[a], view[b])
    ensures Ahead(key.side, NextView(Fresh, view, hit)[i], NextView(Fresh, view, hit)[j])
  {
    NextLevels(view, hit, i);
    NextLevels(view, hit, j);
    var skip := if Done(hit) then 1 else 0;
    assert Ahead(key.side, view[i + skip], view[j + skip]);
  }

  // A fill of the best level turns the listing of the rows into the listing of the
  // updated rows.
  lemma HitListing(orders: map<OrderId, Order>, key: BookKey, view: seq<Order>, hit: Order)
    requires IsListing(orders, key, view) && Keyed(orders) && view != [] && IsBump(view[0], hit)
    ensures IsListing(orders[hit.id := hit], key, NextView(Fresh, view, hit))
  {
    var rows, next := orders[hit.id := hit], NextView(Fresh, view, hit);
    ListingIsDistinct(orders, key, view);
    forall i | 0 <= i < |next|
      ensures next[i].id in rows && rows[next[i].id] == next[i] && next[i].Resting() && KeyOf(next[i]) == key
    {
      HitRowsListed(orders, key, view, hit, i);
    }
    forall id | id in rows && rows[id].Resting() && KeyOf(rows[id]) == key ensures rows[id] in next {
      HitRestingServed(orders, key, view, hit, id);
    }
    forall i, j | 0 <= i < j < |next| ensures Ahead(key.side, next[i], next[j]) {
      HitOrdered(key, view, hit, i, j);
    }
  }

  // Writing a row that is not on this side, now or before, leaves the listing alone.
  lemma ListingBeside(orders: map<OrderId, Order>, key: BookKey, view: seq<Order>, o: Order)
    requires IsListing(orders, key, view) && KeyOf(o) != key
    requires o.id in orders ==> KeyOf(orders[o.id]) != key
    ensures IsListing(orders[o.id := o], key, view)
  {
  }

  lemma {:induction false} QuantityServes(o: Order, view: seq<Order>, pair: Pair, orders: map<OrderId, Order>,
                                          key: BookKey)
    requires Live(view) && o.filled <= o.quantity && IsListing(orders, key, view) && Keyed(orders)
    requires CoreView(orders, view, o.id)
    ensures var r := MatchByQuantity(Fresh, o, view, pair); IsListing(UpdateRows(orders, r.updated, o.id), key, r.rest)
    decreases Rounds(Fresh, o.Remaining(), view, Portion(view))
  {
    if o.filled < o.quantity && view != [] && Crosses(o, view[0]) {
      FillProgress(Fresh, o, view, pair);
      var (incoming, hit, trade) := FillAgainstLevel(o, view[0], pair);
      var next := NextView(Fresh, view, hit);
      HitListing(orders, key, view, hit);
      NextCoreView(orders, view, hit, o.id);
      QuantityServes(incoming, next, pair, orders[hit.id := hit], key);
      var r := MatchByQuantity(Fresh, incoming, next, pair);
      UpdatesThen(orders, incoming, hit, r.updated, o.id);
    }
  }

  lemma NextCoreView(orders: map<OrderId, Order>, view: seq<Order>, hit: Order, incoming: OrderId)
    requires CoreView(orders, view, incoming) && view != [] && IsBump(view[0], hit)
    ensures CoreView(orders[hit.id := hit], NextView(Fresh, view, hit), incoming)
  {
    var next := NextView(Fresh, view, hit);
    forall i | 0 <= i < |next|
      ensures next[i].id in orders && next[i].id != incoming && SameCore(orders[hit.id := hit][next[i].id], next[i])
    {
      assert next[i] == hit || next[i] in view;
    }
  }

  lemma UpdatesThen(orders: map<OrderId, Order>, incoming: Order, hit: Order, updated: seq<Order>, id: OrderId)
    requires incoming.id == id && hit.id != id && hit.id in orders && SameCore(orders[hit.id], hit)
    ensures UpdateRows(orders, [incoming, hit] + updated, id) == UpdateRows(orders[hit.id := hit], updated, id)
  {
    var all := [incoming, hit] + updated;
    assert all[2..] == updated;
    UpdateRowsHead(orders, all, id);
  }

  lemma {:induction false} BudgetServes(o: Order, view: seq<Order>, pair: Pair, orders: map<OrderId, Order>,
                                        key: BookKey)
    requires Live(view) && o.price >= 0.0 && o.kind == Market && o.side == Buy
    requires IsListing(orders, key, view) && Keyed(orders) && CoreView(orders, view, o.id)
    ensures var r := MatchByBudget(Fresh, o, view, pair); IsListing(UpdateRows(orders, r.updated, o.id), key, r.rest)
    decreases Rounds(Fresh, o.price, view, CostPortion(view))
  {
    if o.price > 0.0 && view != [] {
      var incoming, hit, trade, next := BudgetRoundFacts(Fresh, o, view, pair);
      HitListing(orders, key, view, hit);
      NextCoreView(orders, view, hit, o.id);
      BudgetServes(incoming, next, pair, orders[hit.id := hit], key);
      UpdatesThen(orders, incoming, hit, MatchByBudget(Fresh, incoming, next, pair).updated, o.id);
    }
  }

  // The rest of a match lists the updated rows of the other side: for every fresh match,
  // and for a stale one that leaves its order unfilled.
  lemma MatchServes(mode: ReadMode, o: Order, view: seq<Order>, pair: Pair, orders: map<OrderId, Order>, key: BookKey)
    requires Live(view) && o.filled == 0.0 && o.quantity > 0.0 && o.price >= 0.0
    requires IsListing(orders, key, view) && Keyed(orders) && CoreView(orders, view, o.id)
    ensures var r := Match(mode, o, view, pair);
      mode == Fresh || (o.kind == Limit && r.incoming.status != Filled) ==>
        IsListing(UpdateRows(orders, r.updated, o.id), key, r.rest)
  {
    if mode == Fresh {
      if o.kind == Market && o.side == Buy {
        BudgetServes(o.(quantity := INFINITE_QUANTITY), view, pair, orders, key);
      } else {
        QuantityServes(o, view, pair, orders, key);
      }
    } else if o.kind == Limit && view != [] && Crosses(o, view[0]) {
      assert LiveLevel(view[0]);
      StaleRepeats(o, view, pair);
      QuantityFacts(Stale, o, view, pair);
      assert Match(mode, o, view, pair).incoming.status == Filled;
    }
  }

  lemma CreatedServes(mode: ReadMode, s: State, user: UserId, req: Request, id: OrderId, now: int, t: State, p: Stages)
    requires Valid(s) && Created(mode, s, user, req, id, now, t, p)
    requires mode == Fresh || (p.o.kind == Limit && p.result.incoming.status != Filled)
    ensures IsListing(t.orders, OppositeKey(p.o), p.result.rest)
  {
    StagesRecord(mode, s, user, req, id, now, t, p);
    RecordedServes(mode, s, t, p);
  }

  lemma RecordedServes(mode: ReadMode, s: State, t: State, p: Stages)
    requires Valid(s) && Recorded(mode, s, t, p)
    requires mode == Fresh || (p.o.kind == Limit && p.result.incoming.status != Filled)
    ensures IsListing(t.orders, OppositeKey(p.o), p.result.rest)
  {
    var key := OppositeKey(p.o);
    ViewRows(s, p.o, p.pending, p.view);
    ListingBeside(s.orders, key, p.view, p.o);
    MatchServes(mode, p.o, p.view, p.pair, p.pending, key);
    MatchOutcome(mode, p.o, p.view, p.pair);
    RowsSwept(mode, p.o, p.view, p.pair, p.result, s.orders, s.book);
    var rows := UpdateRows(p.pending, p.result.updated, p.o.id);
    ListingBeside(rows, key, p.result.rest,
                  rows[p.o.id].(status := p.result.incoming.status, filled := p.result.incoming.filled));
  }

  // The synced book serves, on the side that was traded against, exactly the view with
  // which the fresh match ended.
  lemma SyncedBookServesRest(s: State, user: UserId, req: Request, id: OrderId, now: int, t: State)
    requires Valid(s) && LiveBook(s.book) && Create(Fresh, Decoded, s, user, req, id, now) == Ok(t)
    requires Live(LevelsFor(s, user, req, id, now))
    ensures var o := OrderOf(user, req, id, now);
      Levels(t.book, OppositeKey(o))
           == Match(Fresh, o, LevelsFor(s, user, req, id, now), Pair(req.base, req.quote)).rest
  {
    var p := CreateStages(Fresh, s, user, req, id, now);
    CreatedRows(Fresh, s, user, req, id, now, t, p);
    CreatedServes(Fresh, s, user, req, id, now, t, p);
    LevelsAreListing(t.orders, t.book, OppositeKey(p.o));
    ListingUnique(t.orders, OppositeKey(p.o), Levels(t.book, OppositeKey(p.o)), p.result.rest);
  }

  // --- Prices on the grid -------------------------------------------------------------------

  // The limit orders have their prices on the grid and their times in the window.
  ghost predicate AllAligned(orders: map<OrderId, Order>, tick: real, start: int, span: int) {
    forall id :: id in orders && orders[id].kind == Limit ==>
      Aligned(orders[id].price, orders[id].createdAt, tick, start, span)
  }

  // Then the index serves better prices first.
  lemma AlignedListingOrdered(s: State, key: BookKey, view: seq<Order>, tick: real, start: int, span: int)
    requires Valid(s) && IsListing(s.orders, key, view)
    requires ShortSpan(tick, span) && AllAligned(s.orders, tick, start, span)
    ensures PriceOrdered(key.side, view)
  {
    forall i, j | 0 <= i < j < |view|
      ensures if key.side == Sell then view[i].price <= view[j].price else view[i].price >= view[j].price
    {
      var a, b := view[i], view[j];
      assert RowOk(s.markets, a.id, a) && RowOk(s.markets, b.id, b);
      assert Ahead(key.side, a, b);
      ScoreIsLexicographic(a.price, a.createdAt, b.price, b.createdAt, tick, start, span);
      ScoreIsLexicographic(b.price, b.createdAt, a.price, a.createdAt, tick, start, span);
    }
  }

  // --- The uncrossed book ---------------------------------------------------------------------

  predicate Facing(bid: Order, ask: Order) {
    && bid.Resting() && ask.Resting() && bid.marketId == ask.marketId
    && bid.side == Buy && ask.side == Sell
  }

  ghost predicate IsUncrossed(orders: map<OrderId, Order>) {
    forall i, j :: i in orders && j in orders && Facing(orders[i], orders[j]) ==> orders[i].price < orders[j].price
  }

  // A creation that went through, as far as the rows are concerned.
  lemma CreatedParts(mode: ReadMode, s: State, user: UserId, req: Request, id: OrderId, now: int, t: State)
    returns (p: Stages)
    requires Valid(s) && LiveBook(s.book) && Create(mode, Decoded, s, user, req, id, now) == Ok(t)
    ensures Created(mode, s, user, req, id, now, t, p)
    ensures t.orders.Keys == s.orders.Keys + {id} && id !in s.orders && SameCores(s.orders, t.orders)
    ensures p.o == OrderOf(user, req, id, now)
    ensures SameCore(p.o, t.orders[id]) && t.orders[id].status == p.result.incoming.status
    ensures forall k :: k in s.orders && !s.orders[k].Resting() ==> t.orders[k] == s.orders[k]
  {
    p := CreateStages(mode, s, user, req, id, now);
    CreateRowsEvolve(mode, s, user, req, id, now, t, p);
    CreatedRows(mode, s, user, req, id, now, t, p);
  }

  lemma NewRowUncrossed(orders: map<OrderId, Order>, rows: map<OrderId, Order>, id: OrderId)
    requires IsUncrossed(orders) && SameCores(orders, rows) && rows.Keys == orders.Keys + {id} && id !in orders
    requires forall k :: k in orders && !orders[k].Resting() ==> !rows[k].Resting()
    requires rows[id].Resting() ==>
      forall k :: k in rows && rows[k].Resting() && KeyOf(rows[k]) == OppositeKey(rows[id]) ==>
        if rows[id].side == Buy then rows[id].price < rows[k].price else rows[k].price < rows[id].price
    ensures IsUncrossed(rows)
  {
    forall i, j | i in rows && j in rows && Facing(rows[i], rows[j])
      ensures rows[i].price < rows[j].price
    {
      assert KeyOf(rows[j]) == OppositeKey(rows[i]) && KeyOf(rows[i]) == OppositeKey(rows[j]);
    }
  }

  lemma UnfilledRests(mode: ReadMode, o: Order, view: seq<Order>, pair: Pair, r: OrderResult, row: Order)
    requires Live(view) && o.filled == 0.0 && o.quantity > 0.0 && r == Match(mode, o, view, pair)
    requires MatchedAs(mode, o, view, pair, r)
    requires row == o.(status := r.incoming.status, filled := r.incoming.filled)
    ensures row.Resting() <==> o.kind == Limit && StaysUnfilled(mode, o, view)
    ensures row.Resting() ==> r.incoming.status != Filled && r.rest == view[CrossingRun(o, view)..]
  {
    if o.kind == Limit { LimitRest(mode, o, view, pair); }
  }

  // A creation rests if and only if it is a limit order that stays unfilled; and then the
  // side it met lists what is left behind the run that it crossed.
  lemma RecordedRest(mode: ReadMode, s: State, t: State, p: Stages)
    requires Valid(s) && Recorded(mode, s, t, p)
    ensures p.o.id in t.orders && SameCore(p.o, t.orders[p.o.id])
    ensures t.orders[p.o.id].Resting() <==> p.o.kind == Limit && StaysUnfilled(mode, p.o, p.view)
    ensures t.orders[p.o.id].Resting() ==>
      IsListing(t.orders, OppositeKey(p.o), p.view[CrossingRun(p.o, p.view)..])
  {
    RecordedRows(mode, s, t, p);
    UnfilledRests(mode, p.o, p.view, p.pair, p.result, t.orders[p.o.id]);
    if t.orders[p.o.id].Resting() { RecordedServes(mode, s, t, p); }
  }

  lemma RecordedOthers(mode: ReadMode, s: State, t: State, p: Stages)
    requires Valid(s) && Recorded(mode, s, t, p)
    ensures SameCores(s.orders, t.orders) && t.orders.Keys == s.orders.Keys + {p.o.id} && p.o.id !in s.orders
    ensures forall k :: k in s.orders && !s.orders[k].Resting() ==> !t.orders[k].Resting()
  {
    RecordedRows(mode, s, t, p);
    RecordedRowsOk(mode, s, t, p);
    ViewRows(s, p.o, p.pending, p.view);
    RowsEvolve(s.orders, t.orders, p.view);
  }

  // A resting row crosses the book if and only if a level of the side it met crosses it.
  lemma RestCrossesIff(rows: map<OrderId, Order>, o: Order, rest: seq<Order>)
    requires o.id in rows && SameCore(o, rows[o.id]) && rows[o.id].Resting() && o.kind == Limit
    requires IsListing(rows, OppositeKey(o), rest)
    ensures AnyCrosses(o, rest) <==>
      exists k :: k in rows && rows[k].Resting() && KeyOf(rows[k]) == OppositeKey(o) && Crosses(o, rows[k])
  {
    if i :| 0 <= i < |rest| && Crosses(o, rest[i]) { assert rows[rest[i].id] == rest[i]; }
    if k :| k in rows && rows[k].Resting() && KeyOf(rows[k]) == OppositeKey(o) && Crosses(o, rows[k]) {
      var i :| 0 <= i < |rest| && rest[i] == rows[k];
    }
  }

  lemma RecordedUncrossedIff(mode: ReadMode, s: State, t: State, p: Stages)
    requires Valid(s) && Recorded(mode, s, t, p) && IsUncrossed(s.orders)
    ensures IsUncrossed(t.orders) <==> !Overlooks(mode, p.o, p.view)
  {
    RecordedRest(mode, s, t, p);
    RecordedOthers(mode, s, t, p);
    if t.orders[p.o.id].Resting() {
      RestCrossesIff(t.orders, p.o, p.view[CrossingRun(p.o, p.view)..]);
      BeyondIsRest(p.o, p.view);
    }
    if Overlooks(mode, p.o, p.view) {
      CrossedBy(t.orders, p.o);
    } else {
      NewRowUncrossed(s.orders, t.orders, p.o.id);
    }
  }

  lemma CrossedBy(rows: map<OrderId, Order>, o: Order)
    requires o.id in rows && SameCore(o, rows[o.id]) && rows[o.id].Resting() && o.kind == Limit
    requires exists k :: k in rows && rows[k].Resting() && KeyOf(rows[k]) == OppositeKey(o) && Crosses(o, rows[k])
    ensures !IsUncrossed(rows)
  {
    var k :| k in rows && rows[k].Resting() && KeyOf(rows[k]) == OppositeKey(o) && Crosses(o, rows[k]);
    assert if o.side == Buy then Facing(rows[o.id], rows[k]) else Facing(rows[k], rows[o.id]);
  }

  lemma DecodedUncrossedIff(mode: ReadMode, s: State, user: UserId, req: Request, id: OrderId, now: int, t: State)
    requires Valid(s) && LiveBook(s.book) && IsUncrossed(s.orders)
    requires Create(mode, Decoded, s, user, req, id, now) == Ok(t)
    ensures IsUncrossed(t.orders) <==>
      !Overlooks(mode, OrderOf(user, req, id, now), LevelsFor(s, user, req, id, now))
  {
    var p := CreateStages(mode, s, user, req, id, now);
    StagesRecord(mode, s, user, req, id, now, t, p);
    StagesOrder(mode, s, user, req, id, now, t, p);
    RecordedUncrossedIff(mode, s, t, p);
  }

  lemma UncrossedBlind(orders: map<OrderId, Order>, rows: map<OrderId, Order>)
    requires BlindRows(orders, rows)
    ensures IsUncrossed(orders) <==> IsUncrossed(rows)
  {
    assert forall k :: k in orders ==> Blind(orders[k], rows[k]);
    if !IsUncrossed(orders) {
      var i, j :| i in orders && j in orders && Facing(orders[i], orders[j]) && !(orders[i].price < orders[j].price);
      assert Facing(rows[i], rows[j]);
    }
    if !IsUncrossed(rows) {
      var i, j :| i in rows && j in rows && Facing(rows[i], rows[j]) && !(rows[i].price < rows[j].price);
      assert Facing(orders[i], orders[j]);
    }
  }

  // In any consistent state whose book is not crossed, in both modes and both readings of
  // the times, a creation that goes through crosses it if and only if its order is left
  // resting with levels behind the run it crossed that cross it, too.
  lemma CreateUncrossedIff(mode: ReadMode, times: TimeRead, s: State, user: UserId, req: Request, id: OrderId, now: int,
                           t: State)
    requires Consistent(s) && LiveBook(s.book) && IsUncrossed(s.orders)
    requires Create(mode, times, s, user, req, id, now) == Ok(t)
    ensures IsUncrossed(t.orders) <==>
      !Overlooks(mode, OrderOf(user, req, id, now), LevelsFor(s, user, req, id, now))
  {
    var k := CreateOnStored(mode, times, s, user, req, id, now, t);
    StoredIsAlike(s);
    UncrossedBlind(s.orders, Stored(s).orders);
    DecodedUncrossedIff(mode, Stored(s), user, req, id, now, k);
    UncrossedBlind(k.orders, t.orders);
  }

  // --- Runs that do not cross the book -----------------------------------------------------------

  // A step that creates an order and leaves it resting in front of levels it overlooks.
  ghost predicate OverlooksIn(mode: ReadMode, times: TimeRead, s: State, op: Op)
    requires LiveBook(s.book)
  {
    && op.CreateOp? && Create(mode, times, s, op.user, op.req, op.id, op.now).Ok?
    && Overlooks(mode, OrderOf(op.user, op.req, op.id, op.now), LevelsFor(s, op.user, op.req, op.id, op.now))
  }

  lemma CancelUncrossed(s: State, id: OrderId)
    requires Cancel(s, id).Ok? && IsUncrossed(s.orders)
    ensures IsUncrossed(Cancel(s, id).value.orders)
  {
    var rows := Cancel(s, id).value.orders;
    forall i, j | i in rows && j in rows && Facing(rows[i], rows[j]) ensures rows[i].price < rows[j].price {
      assert rows[i] == s.orders[i] && rows[j] == s.orders[j];
    }
  }

  // A step crosses the book if and only if it does; cancellations and deposits never do.
  lemma StepUncrossedIff(mode: ReadMode, times: TimeRead, s: State, op: Op)
    requires Consistent(s) && LiveBook(s.book) && IsUncrossed(s.orders)
    ensures IsUncrossed(Step(mode, times, s, op).orders) <==> !OverlooksIn(mode, times, s, op)
  {
    if op.CreateOp? {
      var r := Create(mode, times, s, op.user, op.req, op.id, op.now);
      if r.Ok? { CreateUncrossedIff(mode, times, s, op.user, op.req, op.id, op.now, r.value); }
    } else {
      OtherStepUncrossed(mode, times, s, op);
    }
  }

  lemma OtherStepUncrossed(mode: ReadMode, times: TimeRead, s: State, op: Op)
    requires LiveBook(s.book) && IsUncrossed(s.orders) && !op.CreateOp?
    ensures IsUncrossed(Step(mode, times, s, op).orders)
  {
    if op.CancelOp? && Cancel(s, op.target).Ok? { CancelUncrossed(s, op.target); }
  }

  ghost predicate NoneOverlooks(mode: ReadMode, times: TimeRead, s: State, ops: seq<Op>)
    requires Consistent(s)
    decreases |ops|
  {
    ops == [] || (
      StepConsistent(mode, times, s, ops[0]);
      !OverlooksIn(mode, times, s, ops[0]) && NoneOverlooks(mode, times, Step(mode, times, s, ops[0]), ops[1..]))
  }

  // After each of its steps the book is not crossed.
  ghost predicate StaysUncrossed(mode: ReadMode, times: TimeRead, s: State, ops: seq<Op>)
    requires Consistent(s)
  {
    forall k :: 0 <= k <= |ops| ==> IsUncrossed(Run(mode, times, s, ops[..k]).orders)
  }

  lemma PrefixOfRun(mode: ReadMode, times: TimeRead, s: State, ops: seq<Op>, t: State, k: nat)
    requires Consistent(s) && LiveBook(s.book) && ops != [] && t == Step(mode, times, s, ops[0]) && k < |ops|
    ensures Consistent(t) && Run(mode, times, s, ops[..k + 1]) == Run(mode, times, t, ops[1..][..k])
  {
    StepConsistent(mode, times, s, ops[0]);
    assert ops[..k + 1][0] == ops[0] && ops[..k + 1][1..] == ops[1..][..k];
  }

  lemma StaysThen(mode: ReadMode, times: TimeRead, s: State, ops: seq<Op>, t: State)
    requires Consistent(s) && LiveBook(s.book) && ops != [] && t == Step(mode, times, s, ops[0])
    requires IsUncrossed(s.orders) && Consistent(t)
    ensures StaysUncrossed(mode, times, s, ops) <==> StaysUncrossed(mode, times, t, ops[1..])
  {
    forall k | 0 <= k < |ops|
      ensures Run(mode, times, s, ops[..k + 1]) == Run(mode, times, t, ops[1..][..k])
    {
      PrefixOfRun(mode, times, s, ops, t, k);
    }
    if StaysUncrossed(mode, times, s, ops) {
      forall k | 0 <= k <= |ops[1..]| ensures IsUncrossed(Run(mode, times, t, ops[1..][..k]).orders) {
        assert IsUncrossed(Run(mode, times, s, ops[..k + 1]).orders);
      }
    }
    if StaysUncrossed(mode, times, t, ops[1..]) {
      forall k | 0 <= k <= |ops| ensures IsUncrossed(Run(mode, times, s, ops[..k]).orders) {
        if k > 0 { assert IsUncrossed(Run(mode, times, t, ops[1..][..k - 1]).orders); }
      }
    }
  }

  // From a book that is not crossed, whatever the prices, the times and the modes, a run
  // leaves it so after each of its steps if and only if none of its creations that go
  // through overlooks a level; so the first that does crosses the book.
  lemma {:induction false} RunUncrossedIff(mode: ReadMode, times: TimeRead, s: State, ops: seq<Op>)
    requires Consistent(s) && IsUncrossed(s.orders)
    ensures StaysUncrossed(mode, times, s, ops) <==> NoneOverlooks(mode, times, s, ops)
    decreases |ops|
  {
    if ops != [] {
      StepConsistent(mode, times, s, ops[0]);
      var t := Step(mode, times, s, ops[0]);
      StepUncrossedIff(mode, times, s, ops[0]);
      StaysThen(mode, times, s, ops, t);
      if IsUncrossed(t.orders) {
        RunUncrossedIff(mode, times, t, ops[1..]);
      } else {
        assert Run(mode, times, t, ops[1..][..0]) == t;
      }
    }
  }

  // --- Either reading of the times -------------------------------------------------------------

  // As written, the zero time has to lie in the window too, since levels that were hit
  // carry it.
  predicate InWindow(times: TimeRead, start: int, span: int) {
    times == Decoded || start <= ZERO_TIME_MILLIS <= start + span
  }

  // Limit orders come with their prices on the grid, within the window.
  ghost predicate AlignedOp(op: Op, tick: real, start: int, span: int) {
    match op
    case CreateOp(user, req, id, now) => req.kind == Limit ==>
      Aligned(Effective(req).price, Millis(now), tick, start, span)
    case _ => true
  }

  // The book holds no other times than those of the rows, and the zero time.
  lemma StoredAligned(times: TimeRead, s: State, tick: real, start: int, span: int)
    requires Consistent(s) && AllAligned(s.orders, tick, start, span)
    requires InWindow(times, start, span) && (times == Decoded ==> Valid(s))
    ensures AllAligned(Stored(s).orders, tick, start, span)
  {
    if times == Decoded { ValidIsConsistent(s); }
    forall id | id in s.orders && s.orders[id].kind == Limit
      ensures Aligned(Stored(s).orders[id].price, Stored(s).orders[id].createdAt, tick, start, span)
    {
      assert Aligned(s.orders[id].price, s.orders[id].createdAt, tick, start, span);
      assert Stored(s).orders[id] == StoredRow(s.book, s.orders[id]) && Stored(s).orders[id].id == id;
    }
  }

  lemma RowsAligned(orders: map<OrderId, Order>, rows: map<OrderId, Order>, tick: real, start: int, span: int)
    requires AllAligned(orders, tick, start, span) && SameCores(orders, rows)
    requires forall id :: id in rows && id !in orders && rows[id].kind == Limit ==>
      Aligned(rows[id].price, rows[id].createdAt, tick, start, span)
    ensures AllAligned(rows, tick, start, span)
  {
  }

  lemma StepCores(mode: ReadMode, times: TimeRead, s: State, op: Op)
    requires Consistent(s) && LiveBook(s.book)
    ensures SameCores(s.orders, Step(mode, times, s, op).orders)
  {
    StepAlike(mode, times, s, op);
    StepEvolves(mode, Stored(s), op);
    EvolvesBlind(s, Step(mode, Decoded, Stored(s), op), Step(mode, times, s, op), times);
  }

  lemma StepAligned(mode: ReadMode, times: TimeRead, s: State, op: Op, tick: real, start: int, span: int)
    requires Consistent(s) && LiveBook(s.book) && AllAligned(s.orders, tick, start, span)
    requires AlignedOp(op, tick, start, span)
    ensures AllAligned(Step(mode, times, s, op).orders, tick, start, span)
  {
    StepCores(mode, times, s, op);
    if op.CreateOp? {
      var r := Create(mode, times, s, op.user, op.req, op.id, op.now);
      if r.Ok? { CreatedAligned(mode, times, s, op.user, op.req, op.id, op.now, r.value, tick, start, span); }
    } else {
      RowsAligned(s.orders, Step(mode, times, s, op).orders, tick, start, span);
    }
  }

  lemma CreatedAligned(mode: ReadMode, times: TimeRead, s: State, user: UserId, req: Request, id: OrderId, now: int,
                       t: State, tick: real, start: int, span: int)
    requires Consistent(s) && LiveBook(s.book) && Create(mode, times, s, user, req, id, now) == Ok(t)
    requires AllAligned(s.orders, tick, start, span) && SameCores(s.orders, t.orders)
    requires req.kind == Limit ==> Aligned(Effective(req).price, Millis(now), tick, start, span)
    ensures AllAligned(t.orders, tick, start, span)
  {
    CreatedTime(mode, times, s, user, req, id, now, t);
    CreatedTerms(mode, times, s, user, req, id, now, t);
    RowsAligned(s.orders, t.orders, tick, start, span);
  }

  lemma CreatedTerms(mode: ReadMode, times: TimeRead, s: State, user: UserId, req: Request, id: OrderId, now: int,
                     t: State)
    requires Consistent(s) && LiveBook(s.book) && Create(mode, times, s, user, req, id, now) == Ok(t)
    ensures id in t.orders && t.orders[id].kind == req.kind && t.orders[id].price == Effective(req).price
  {
    var k := CreateOnStored(mode, times, s, user, req, id, now, t);
    var p := CreatedParts(mode, Stored(s), user, req, id, now, k);
    assert Blind(k.orders[id], t.orders[id]);
  }

  lemma StepStaysValid(mode: ReadMode, times: TimeRead, s: State, op: Op)
    requires Consistent(s) && LiveBook(s.book) && (times == Decoded ==> Valid(s))
    ensures times == Decoded ==> Valid(Step(mode, times, s, op))
  {
    if times == Decoded { StepKeepsValid(mode, s, op); }
  }

  // --- Runs ---------------------------------------------------------------------------------

  // What is assumed of the start, the grid and the window.
  ghost predicate OnGrid(times: TimeRead, s: State, ops: seq<Op>, tick: real, start: int, span: int) {
    && Consistent(s) && (times == Decoded ==> Valid(s))
    && IsUncrossed(s.orders) && AllAligned(s.orders, tick, start, span)
    && ShortSpan(tick, span) && InWindow(times, start, span)
    && forall op :: op in ops ==> AlignedOp(op, tick, start, span)
  }

  lemma GridOrdersSides(times: TimeRead, t: State, tick: real, start: int, span: int)
    requires OnGrid(times, t, [], tick, start, span)
    ensures forall key: BookKey :: PriceOrdered(key.side, Levels(t.book, key))
  {
    StoredAligned(times, t, tick, start, span);
    forall key: BookKey ensures PriceOrdered(key.side, Levels(t.book, key)) {
      LevelsAreListing(Stored(t).orders, t.book, key);
      AlignedListingOrdered(Stored(t), key, Levels(t.book, key), tick, start, span);
    }
  }

  lemma GridStep(mode: ReadMode, times: TimeRead, s: State, op: Op, tick: real, start: int, span: int)
    requires OnGrid(times, s, [op], tick, start, span)
    ensures LiveBook(s.book) && !OverlooksIn(mode, times, s, op)
    ensures OnGrid(times, Step(mode, times, s, op), [], tick, start, span)
  {
    assert op in [op];
    StepConsistent(mode, times, s, op);
    StepStaysValid(mode, times, s, op);
    StepAligned(mode, times, s, op, tick, start, span);
    GridOrdersSides(times, s, tick, start, span);
    if op.CreateOp? {
      OrderedOverlooksNone(mode, OrderOf(op.user, op.req, op.id, op.now), LevelsFor(s, op.user, op.req, op.id, op.now));
    }
    StepUncrossedIff(mode, times, s, op);
  }

  // On the grid every side is served best price first, so nothing is ever overlooked.
  lemma {:induction false} GridRun(mode: ReadMode, times: TimeRead, s: State, ops: seq<Op>, tick: real, start: int,
                                   span: int)
    requires OnGrid(times, s, ops, tick, start, span)
    ensures NoneOverlooks(mode, times, s, ops)
    ensures OnGrid(times, Run(mode, times, s, ops), [], tick, start, span)
    decreases |ops|
  {
    if ops != [] {
      assert ops[0] in ops;
      StepConsistent(mode, times, s, ops[0]);
      GridStep(mode, times, s, ops[0], tick, start, span);
      GridRun(mode, times, Step(mode, times, s, ops[0]), ops[1..], tick, start, span);
    }
  }

  // On the grid, and while all times of the book lie within the span, no run crosses the
  // book, in either mode, and the index serves every side best price first. As written the
  // span has to reach back to the zero time, so the tick has to exceed 6.38.
  lemma RunUncrossed(mode: ReadMode, times: TimeRead, s: State, ops: seq<Op>, tick: real, start: int, span: int)
    requires OnGrid(times, s, ops, tick, start, span)
    ensures StaysUncrossed(mode, times, s, ops)
    ensures var t := Run(mode, times, s, ops);
      && IsUncrossed(t.orders)
      && forall key: BookKey :: PriceOrdered(key.side, Levels(t.book, key))
  {
    GridRun(mode, times, s, ops, tick, start, span);
    RunUncrossedIff(mode, times, s, ops);
    assert ops[..|ops|] == ops;
    GridOrdersSides(times, Run(mode, times, s, ops), tick, start, span);
  }

  // --- Best execution in any consistent state -------------------------------------------------

  // The levels that a request meets, and as they are read.
  lemma ViewIsRead(times: TimeRead, t: State, user: UserId, req: Request, id: OrderId, now: int)
    requires Consistent(t)
    ensures var view := LevelsFor(t, user, req, id, now);
      Live(view) && Live(AllAsRead(times, view)) && BlindList(view, AllAsRead(times, view))
  {
    LevelsForAreDistinct(t, user, req, id, now);
    ReadBlind(times, LevelsFor(t, user, req, id, now));
  }

  // The trades of a request that is read fresh.
  function FreshTrades(times: TimeRead, t: State, user: UserId, req: Request, id: OrderId, now: int): seq<Trade>
    requires Live(AllAsRead(times, LevelsFor(t, user, req, id, now)))
  {
    Match(Fresh, OrderOf(user, req, id, now), AllAsRead(times, LevelsFor(t, user, req, id, now)),
          Pair(req.base, req.quote)).trades
  }

  // A market buy gets the most that its amount can buy, however the resting asks are divided
  // up, if and only if it takes from no ask that is dearer than one with something left.
  lemma BuyIsBestIff(times: TimeRead, t: State, user: UserId, req: Request, id: OrderId, now: int)
    requires Consistent(t) && req.kind == Market && req.side == Buy && req.amount >= 0.0
    ensures var view := LevelsFor(t, user, req, id, now);
      && Live(AllAsRead(times, view))
      && var trades := FreshTrades(times, t, user, req, id, now);
         BuysMost(view, req.amount, trades) <==> WellPlaced(Buy, view, AllocationOf(view, trades))
  {
    ViewIsRead(times, t, user, req, id, now);
    var view, o := LevelsFor(t, user, req, id, now), OrderOf(user, req, id, now);
    MarketBuyBestIff(o.(quantity := INFINITE_QUANTITY), view, Pair(req.base, req.quote));
    MatchBlind(Fresh, o, view, AllAsRead(times, view), Pair(req.base, req.quote));
  }

  // A market sell brings the most that its quantity can if and only if it sells into no bid
  // that is lower than one with something left.
  lemma SellIsBestIff(times: TimeRead, t: State, user: UserId, req: Request, id: OrderId, now: int)
    requires Consistent(t) && req.kind == Market && req.side == Sell && req.quantity >= 0.0
    ensures var view := LevelsFor(t, user, req, id, now);
      && Live(AllAsRead(times, view))
      && var trades := FreshTrades(times, t, user, req, id, now);
         SellsBest(view, req.quantity, trades) <==> WellPlaced(Sell, view, AllocationOf(view, trades))
  {
    ViewIsRead(times, t, user, req, id, now);
    var view, o := LevelsFor(t, user, req, id, now), OrderOf(user, req, id, now);
    MarketSellBestIff(o, view, Pair(req.base, req.quote));
    MatchBlind(Fresh, o, view, AllAsRead(times, view), Pair(req.base, req.quote));
  }

  // A limit order is filled with all that rests within its limit, or completely, if and only
  // if it overlooks nothing.
  lemma FillsAllIff(times: TimeRead, t: State, user: UserId, req: Request, id: OrderId, now: int)
    requires Consistent(t) && req.kind == Limit && req.quantity > 0.0
    ensures var o, view := OrderOf(user, req, id, now), LevelsFor(t, user, req, id, now);
      && Live(AllAsRead(times, view))
      && (Volume(FreshTrades(times, t, user, req, id, now)) == Min(req.quantity, Available(o, view)) <==>
            !Overlooks(Fresh, o, view))
  {
    ViewIsRead(times, t, user, req, id, now);
    var view, o := LevelsFor(t, user, req, id, now), OrderOf(user, req, id, now);
    LimitFillsIff(o, view, Pair(req.base, req.quote));
    MatchBlind(Fresh, o, view, AllAsRead(times, view), Pair(req.base, req.quote));
  }

  // --- Best execution in every reachable state ------------------------------------------------

  // The levels that a request meets in a state that is reached on the grid.
  lemma ReachableView(mode: ReadMode, times: TimeRead, s: State, ops: seq<Op>, tick: real, start: int, span: int,
                      user: UserId, req: Request, id: OrderId, now: int)
    requires OnGrid(times, s, ops, tick, start, span)
    ensures Consistent(Run(mode, times, s, ops))
    ensures PriceOrdered(Opposite(req.side), LevelsFor(Run(mode, times, s, ops), user, req, id, now))
    ensures var view := LevelsFor(Run(mode, times, s, ops), user, req, id, now);
      Live(view) && Live(AllAsRead(times, view)) && BlindList(view, AllAsRead(times, view))
  {
    RunUncrossed(mode, times, s, ops, tick, start, span);
    RunKeepsConsistent(mode, times, s, ops);
    LevelsAreOrdered(Run(mode, times, s, ops), user, req, id, now);
    ViewIsRead(times, Run(mode, times, s, ops), user, req, id, now);
  }

  lemma LevelsAreOrdered(t: State, user: UserId, req: Request, id: OrderId, now: int)
    requires forall key: BookKey :: PriceOrdered(key.side, Levels(t.book, key))
    ensures PriceOrdered(Opposite(req.side), LevelsFor(t, user, req, id, now))
  {
  }

  // So in any such state a market buy gets the most that its amount can buy.
  lemma ReachableBuyIsBest(mode: ReadMode, times: TimeRead, s: State, ops: seq<Op>, tick: real, start: int, span: int,
                           user: UserId, req: Request, id: OrderId, now: int)
    requires OnGrid(times, s, ops, tick, start, span)
    requires req.kind == Market && req.side == Buy && req.amount >= 0.0
    ensures var t := Run(mode, times, s, ops);
      && Live(AllAsRead(times, LevelsFor(t, user, req, id, now)))
      && BuysMost(LevelsFor(t, user, req, id, now), req.amount, FreshTrades(times, t, user, req, id, now))
  {
    ReachableView(mode, times, s, ops, tick, start, span, user, req, id, now);
    var view, o := LevelsFor(Run(mode, times, s, ops), user, req, id, now), OrderOf(user, req, id, now);
    MarketBuyIsBest(o.(quantity := INFINITE_QUANTITY), view, Pair(req.base, req.quote));
    MatchBlind(Fresh, o, view, AllAsRead(times, view), Pair(req.base, req.quote));
  }

  // A market sell gets the most that its quantity can bring.
  lemma ReachableSellIsBest(mode: ReadMode, times: TimeRead, s: State, ops: seq<Op>, tick: real, start: int, span: int,
                            user: UserId, req: Request, id: OrderId, now: int)
    requires OnGrid(times, s, ops, tick, start, span)
    requires req.kind == Market && req.side == Sell && req.quantity >= 0.0
    ensures var t := Run(mode, times, s, ops);
      && Live(AllAsRead(times, LevelsFor(t, user, req, id, now)))
      && SellsBest(LevelsFor(t, user, req, id, now), req.quantity, FreshTrades(times, t, user, req, id, now))
  {
    ReachableView(mode, times, s, ops, tick, start, span, user, req, id, now);
    var view, o := LevelsFor(Run(mode, times, s, ops), user, req, id, now), OrderOf(user, req, id, now);
    MarketSellIsBest(o, view, Pair(req.base, req.quote));
    MatchBlind(Fresh, o, view, AllAsRead(times, view), Pair(req.base, req.quote));
  }

  lemma OrderedFillsAll(times: TimeRead, t: State, user: UserId, req: Request, id: OrderId, now: int)
    requires Consistent(t) && req.kind == Limit && req.quantity > 0.0
    requires PriceOrdered(Opposite(req.side), LevelsFor(t, user, req, id, now))
    ensures var view := LevelsFor(t, user, req, id, now);
      && Live(AllAsRead(times, view))
      && Volume(FreshTrades(times, t, user, req, id, now))
         == Min(req.quantity, Available(OrderOf(user, req, id, now), view))
  {
    OrderedOverlooksNone(Fresh, OrderOf(user, req, id, now), LevelsFor(t, user, req, id, now));
    FillsAllIff(times, t, user, req, id, now);
  }

  // And a limit order is filled with all that rests within its limit, or completely.
  lemma ReachableLimitFills(mode: ReadMode, times: TimeRead, s: State, ops: seq<Op>, tick: real, start: int, span: int,
                            user: UserId, req: Request, id: OrderId, now: int)
    requires OnGrid(times, s, ops, tick, start, span)
    requires req.kind == Limit && req.quantity > 0.0
    ensures var t := Run(mode, times, s, ops);
      var view := LevelsFor(t, user, req, id, now);
      && Live(AllAsRead(times, view))
      && Volume(FreshTrades(times, t, user, req, id, now))
         == Min(req.quantity, Available(OrderOf(user, req, id, now), view))
  {
    ReachableView(mode, times, s, ops, tick, start, span, user, req, id, now);
    OrderedFillsAll(times, Run(mode, times, s, ops), user, req, id, now);
  }
}
