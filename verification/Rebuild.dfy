// Rebuilding the book from the order table (LoadOrderBookToRedis over the answer of
// GetAllActiveOrders), against the book that the steps maintain; and the listing that
// SQL gives of a side (GetOpenOrdersByMarket), against the order of the index.

module Rebuild {
  import opened Models
  import opened Score
  import opened OrderBook
  import opened Matching
  import opened Exchange
  import opened ReadTimes
  import opened Runs
  import opened Uncrossed

  // --- The query and what it loads ------------------------------------------------------

  // Every row with status open, once, in any order in which created_at ascends.
  ghost predicate IsActiveQuery(orders: map<OrderId, Order>, rows: seq<Order>) {
    && (forall i :: 0 <= i < |rows| ==> rows[i].id in orders && orders[rows[i].id] == rows[i] && rows[i].status == Open)
    && (forall id :: id in orders && orders[id].status == Open ==> orders[id] in rows)
    && (forall i, j :: 0 <= i < j < |rows| ==> rows[i].id != rows[j].id && rows[i].createdAt <= rows[j].createdAt)
  }

  function OpenRows(orders: map<OrderId, Order>): map<OrderId, Order> {
    map id | id in orders && orders[id].status == Open :: orders[id]
  }

  function WithRows(orders: map<OrderId, Order>, rows: seq<Order>): map<OrderId, Order>
    decreases |rows|
  {
    if rows == [] then orders else WithRows(orders[rows[0].id := rows[0]], rows[1..])
  }

  // Loading rows that rest keeps the book in agreement with the rows loaded so far.
  lemma {:induction false} LoadAgrees(orders: map<OrderId, Order>, b: Book, rows: seq<Order>)
    requires Agrees(orders, b)
    requires forall i :: 0 <= i < |rows| ==> rows[i].Resting()
    requires forall i :: 0 <= i < |rows| && rows[i].id in orders ==> orders[rows[i].id] == rows[i]
    requires forall i, j :: 0 <= i < j < |rows| ==> rows[i].id != rows[j].id
    ensures Agrees(WithRows(orders, rows), Load(b, rows))
    decreases |rows|
  {
    if rows != [] {
      InsertAgrees(orders, b, rows[0]);
      var tail := rows[1..];
      assert forall i :: 0 <= i < |tail| ==> tail[i] == rows[i + 1];
      LoadAgrees(orders[rows[0].id := rows[0]], Insert(b, rows[0]), tail);
    }
  }

  lemma {:induction false} WithRowsHas(orders: map<OrderId, Order>, rows: seq<Order>)
    requires forall i, j :: 0 <= i < j < |rows| ==> rows[i].id != rows[j].id
    ensures var all := WithRows(orders, rows);
      && (forall i :: 0 <= i < |rows| ==> rows[i].id in all && all[rows[i].id] == rows[i])
      && (forall id :: id in all ==>
            || (id in orders && all[id] == orders[id])
            || (exists i :: 0 <= i < |rows| && rows[i] == all[id] && all[id].id == id))
      && (forall id :: id in orders ==> id in all)
    decreases |rows|
  {
    if rows != [] {
      var first, tail := rows[0], rows[1..];
      assert forall i :: 0 <= i < |tail| ==> tail[i] == rows[i + 1];
      WithRowsHas(orders[first.id := first], tail);
      assert forall i :: 0 <= i < |tail| ==> tail[i].id != first.id;
    }
  }

  // Loaded into an empty Redis, the query gives the book of the open rows.
  lemma RebuiltAgrees(orders: map<OrderId, Order>, rows: seq<Order>)
    requires Keyed(orders) && IsActiveQuery(orders, rows)
    ensures Agrees(OpenRows(orders), Load(EMPTY, rows))
  {
    LoadedRows(orders, rows);
    LoadAgrees(map[], EMPTY, rows);
  }

  lemma LoadedRows(orders: map<OrderId, Order>, rows: seq<Order>)
    requires Keyed(orders) && IsActiveQuery(orders, rows)
    ensures WithRows(map[], rows) == OpenRows(orders)
  {
    WithRowsHas(map[], rows);
    forall id | id in OpenRows(orders) ensures id in WithRows(map[], rows) {
      var i :| 0 <= i < |rows| && rows[i] == orders[id];
    }
  }

  // --- Rebuilt against maintained ---------------------------------------------------------

  function OpenEntries(details: map<OrderId, Order>, z: seq<Entry>): seq<Entry> {
    if z == [] then []
    else if z[0].member in details && details[z[0].member].status == Open then [z[0]] + OpenEntries(details, z[1..])
    else OpenEntries(details, z[1..])
  }

  // The book without the orders that are not open.
  function OpenPart(b: Book): Book {
    Book(map key | key in b.index && OpenEntries(b.details, b.index[key]) != [] :: OpenEntries(b.details, b.index[key]),
         OpenRows(b.details))
  }

  lemma {:induction false} OpenEntriesAre(details: map<OrderId, Order>, z: seq<Entry>)
    requires Sorted(z)
    ensures Sorted(OpenEntries(details, z))
    ensures forall e :: e in OpenEntries(details, z) <==>
      e in z && e.member in details && details[e.member].status == Open
  {
    if z != [] {
      OpenEntriesAre(details, z[1..]);
      var r := OpenEntries(details, z[1..]);
      assert forall e :: e in z <==> e == z[0] || e in z[1..];
      assert forall e :: e in [z[0]] + r <==> e == z[0] || e in r;
      forall i | 0 <= i < |r| ensures Before(z[0], r[i]) {
        assert r[i] in z[1..];
      }
    }
  }

  lemma OpenPartAgrees(orders: map<OrderId, Order>, b: Book)
    requires Agrees(orders, b)
    ensures Agrees(OpenRows(orders), OpenPart(b))
  {
    var c, open := OpenPart(b), OpenRows(orders);
    forall key
      ensures Sorted(Index(c, key))
      ensures forall e :: e in Index(c, key) <==> Listed(open, key, e)
    {
      OpenEntriesAre(b.details, Index(b, key));
      assert Index(c, key) == OpenEntries(b.details, Index(b, key));
      forall e ensures e in Index(c, key) <==> Listed(open, key, e) {
        assert e in Index(b, key) <==> Listed(orders, key, e);
      }
    }
  }

  lemma OpenPartIsWhole(orders: map<OrderId, Order>, b: Book)
    requires Agrees(orders, b) && Agrees(OpenRows(orders), OpenPart(b))
    ensures OpenPart(b) == b <==> forall id :: id in orders ==> orders[id].status != PartiallyFilled
  {
    if forall id :: id in orders ==> orders[id].status != PartiallyFilled {
      assert Agrees(OpenRows(orders), b);
      AgreementIsUnique(OpenRows(orders), OpenPart(b), b);
    } else {
      var id :| id in orders && orders[id].status == PartiallyFilled;
      assert id in b.details && id !in OpenPart(b).details;
    }
  }

  // Rebuilding gives the maintained book restricted to its open orders, and the whole
  // of it exactly when no resting order has been partially filled.
  lemma RebuiltIsOpenPart(orders: map<OrderId, Order>, b: Book, rows: seq<Order>)
    requires Agrees(orders, b) && IsActiveQuery(orders, rows)
    ensures Load(EMPTY, rows) == OpenPart(b)
    ensures Load(EMPTY, rows) == b <==> forall id :: id in orders ==> orders[id].status != PartiallyFilled
  {
    RebuiltAgrees(orders, rows);
    OpenPartAgrees(orders, b);
    AgreementIsUnique(OpenRows(orders), Load(EMPTY, rows), OpenPart(b));
    OpenPartIsWhole(orders, b);
  }

  // A restart does not clear Redis. Loading into a book that is already in agreement
  // changes nothing.
  lemma {:induction false} ReloadChangesNothing(orders: map<OrderId, Order>, b: Book, rows: seq<Order>)
    requires Agrees(orders, b)
    requires forall i :: 0 <= i < |rows| ==> rows[i].id in orders && orders[rows[i].id] == rows[i] && rows[i].Resting()
    ensures Load(b, rows) == b
    decreases |rows|
  {
    if rows != [] {
      InsertAgrees(orders, b, rows[0]);
      assert orders[rows[0].id := rows[0]] == orders;
      AgreementIsUnique(orders, Insert(b, rows[0]), b);
      ReloadChangesNothing(orders, b, rows[1..]);
    }
  }

  // Rows that are open have never been hit as levels, so the book holds them with their times.
  lemma OpenRowsAreStored(t: State, id: OrderId)
    requires Consistent(t) && id in t.orders
    ensures t.orders[id].status == Open ==> Stored(t).orders[id] == t.orders[id]
    ensures Stored(t).orders[id] == t.orders[id].(createdAt := Stored(t).orders[id].createdAt)
  {
    assert Stored(t).orders[id] == StoredRow(t.book, t.orders[id]) && Stored(t).orders[id].id == id;
  }

  lemma ActiveIsStored(t: State, rows: seq<Order>)
    requires Consistent(t) && IsActiveQuery(t.orders, rows)
    ensures IsActiveQuery(Stored(t).orders, rows)
    ensures (forall id :: id in t.orders ==> t.orders[id].status != PartiallyFilled)
       <==> (forall id :: id in Stored(t).orders ==> Stored(t).orders[id].status != PartiallyFilled)
  {
    forall id | id in t.orders
      ensures t.orders[id].status == Open ==> Stored(t).orders[id] == t.orders[id]
      ensures Stored(t).orders[id].status == t.orders[id].status
    {
      OpenRowsAreStored(t, id);
    }
    assert Stored(t).orders.Keys == t.orders.Keys;
  }

  // After any run, then: a restart with an empty Redis forgets exactly the partially
  // filled orders, and a restart with the old one forgets nothing.
  lemma RestartAfterRun(mode: ReadMode, times: TimeRead, s: State, ops: seq<Op>, rows: seq<Order>)
    requires Consistent(s) && IsActiveQuery(Run(mode, times, s, ops).orders, rows)
    ensures var t := Run(mode, times, s, ops);
      && Load(EMPTY, rows) == OpenPart(t.book)
      && (Load(EMPTY, rows) == t.book <==> forall id :: id in t.orders ==> t.orders[id].status != PartiallyFilled)
      && Load(t.book, rows) == t.book
  {
    RunKeepsConsistent(mode, times, s, ops);
    var t := Run(mode, times, s, ops);
    ActiveIsStored(t, rows);
    RebuiltIsOpenPart(Stored(t).orders, t.book, rows);
    ReloadChangesNothing(Stored(t).orders, t.book, rows);
  }

  // --- The SQL listing of a side -----------------------------------------------------------

  predicate SqlBefore(side: Side, a: Order, b: Order) {
    (if side == Buy then a.price > b.price else a.price < b.price) || (a.price == b.price && a.createdAt <= b.createdAt)
  }

  // Every open row of the side, once, by best price and then by age.
  ghost predicate IsSideQuery(orders: map<OrderId, Order>, key: BookKey, rows: seq<Order>) {
    && (forall i :: 0 <= i < |rows| ==>
          rows[i].id in orders && orders[rows[i].id] == rows[i] && rows[i].status == Open && KeyOf(rows[i]) == key)
    && (forall id :: id in orders && orders[id].status == Open && KeyOf(orders[id]) == key ==> orders[id] in rows)
    && (forall i, j :: 0 <= i < j < |rows| ==> rows[i].id != rows[j].id && SqlBefore(key.side, rows[i], rows[j]))
  }

  // Two rows at one price, in the order in which SQL lists them, that the index serves in
  // the same order: asks the older first, and within one millisecond by id; bids the newer
  // first, so only within one millisecond, and then against the ids.
  predicate SameTurn(side: Side, a: Order, b: Order) {
    if side == Sell then a.createdAt < b.createdAt || (a.createdAt == b.createdAt && a.id < b.id)
    else a.createdAt == b.createdAt && a.id > b.id
  }

  ghost predicate TiesAgree(side: Side, rows: seq<Order>) {
    forall i, j :: 0 <= i < j < |rows| && rows[i].price == rows[j].price ==> SameTurn(side, rows[i], rows[j])
  }

  ghost predicate NonePartial(orders: map<OrderId, Order>, key: BookKey) {
    forall id :: id in orders && KeyOf(orders[id]) == key ==> orders[id].status != PartiallyFilled
  }

  lemma SqlPair(side: Side, a: Order, b: Order, tick: real, start: int, span: int)
    requires ShortSpan(tick, span) && SqlBefore(side, a, b)
    requires Aligned(a.price, a.createdAt, tick, start, span) && Aligned(b.price, b.createdAt, tick, start, span)
    ensures Ahead(side, a, b) <==> (a.price == b.price ==> SameTurn(side, a, b))
  {
    ScoreIsLexicographic(a.price, a.createdAt, b.price, b.createdAt, tick, start, span);
    ScoreIsLexicographic(b.price, b.createdAt, a.price, a.createdAt, tick, start, span);
  }

  // Without partial fills, both list the same rows.
  lemma SqlListsStored(s: State, key: BookKey, rows: seq<Order>)
    requires Consistent(s) && IsSideQuery(s.orders, key, rows) && NonePartial(s.orders, key)
    requires forall i, j :: 0 <= i < j < |rows| ==> Ahead(key.side, rows[i], rows[j])
    ensures rows == Levels(s.book, key)
  {
    var stored := Stored(s).orders;
    forall id | id in s.orders
      ensures s.orders[id].status == Open ==> stored[id] == s.orders[id]
      ensures stored[id].status == s.orders[id].status && KeyOf(stored[id]) == KeyOf(s.orders[id])
    {
      OpenRowsAreStored(s, id);
    }
    assert IsListing(stored, key, rows);
    LevelsAreListing(stored, s.book, key);
    ListingUnique(stored, key, rows, Levels(s.book, key));
  }

  // A partial fill is served by the index and is not in the listing.
  lemma PartialIsServed(s: State, key: BookKey, rows: seq<Order>)
    requires Consistent(s) && IsSideQuery(s.orders, key, rows) && rows == Levels(s.book, key)
    ensures NonePartial(s.orders, key)
  {
    LevelsAreListing(Stored(s).orders, s.book, key);
    forall id | id in s.orders && KeyOf(s.orders[id]) == key ensures s.orders[id].status != PartiallyFilled {
      OpenRowsAreStored(s, id);
      assert s.orders[id].Resting() ==> Stored(s).orders[id] in rows;
    }
  }

  // On the grid, SQL and the index list a side alike exactly when the side has no order that
  // is filled in part and the rows at one price take the same turn: for asks, rows of one
  // millisecond by ascending id; for bids, no two rows at one price, but for those of one
  // millisecond by descending id.
  lemma SqlAgainstIndex(s: State, key: BookKey, rows: seq<Order>, tick: real, start: int, span: int)
    requires Consistent(s) && IsSideQuery(s.orders, key, rows)
    requires ShortSpan(tick, span) && AllAligned(s.orders, tick, start, span)
    ensures rows == Levels(s.book, key) <==> NonePartial(s.orders, key) && TiesAgree(key.side, rows)
  {
    forall i, j | 0 <= i < j < |rows|
      ensures Ahead(key.side, rows[i], rows[j]) <==>
        (rows[i].price == rows[j].price ==> SameTurn(key.side, rows[i], rows[j]))
    {
      OpenIsLimit(s, rows[i].id);
      OpenIsLimit(s, rows[j].id);
      SqlPair(key.side, rows[i], rows[j], tick, start, span);
    }
    if NonePartial(s.orders, key) && TiesAgree(key.side, rows) { SqlListsStored(s, key, rows); }
    if rows == Levels(s.book, key) {
      PartialIsServed(s, key, rows);
      LevelsAreListing(Stored(s).orders, s.book, key);
    }
  }

  lemma OpenIsLimit(s: State, id: OrderId)
    requires Consistent(s) && id in s.orders && s.orders[id].status == Open
    ensures s.orders[id].kind == Limit
  {
    OpenRowsAreStored(s, id);
    assert RowOk(s.markets, id, Stored(s).orders[id]);
  }
}
