// The price-indexed book that Redis keeps beside the order table: one sorted set
// per market and side, and one details hash per order (internal/db/redis.go).

module OrderBook {
  import opened Models
  import opened Score

  datatype BookKey = BookKey(marketId: MarketId, side: Side)

  // An empty sorted set does not exist in Redis, so no key holds one here.
  datatype Book = Book(index: map<BookKey, seq<Entry>>, details: map<OrderId, Order>)

  const EMPTY := Book(map[], map[])

  // The hash holds the creation time in milliseconds, and the best-level reads scan it
  // with %d into a structured time. That fails and leaves the zero time: Undecoded is the
  // read as written, Decoded the read that is evidently meant.
  datatype TimeRead = Decoded | Undecoded

  function AsRead(times: TimeRead, o: Order): Order {
    if times == Decoded then o else o.(createdAt := ZERO_TIME_MILLIS)
  }

  function AllAsRead(times: TimeRead, view: seq<Order>): (r: seq<Order>)
    ensures |r| == |view| && forall i :: 0 <= i < |view| ==> r[i] == AsRead(times, view[i])
  {
    if times == Decoded then view
    else seq(|view|, i requires 0 <= i < |view| => AsRead(times, view[i]))
  }

  function KeyOf(o: Order): BookKey { BookKey(o.marketId, o.side) }

  function EntryOf(o: Order): Entry { Entry(ScoreOf(o), o.id) }

  function Index(b: Book, key: BookKey): seq<Entry> {
    if key in b.index then b.index[key] else []
  }

  function WithIndex(b: Book, key: BookKey, z: seq<Entry>): Book {
    b.(index := if z == [] then b.index - {key} else b.index[key := z])
  }

  // A missing hash reads as an order with every field at its zero value.
  function Detail(b: Book, id: OrderId): Order {
    if id in b.details then b.details[id]
    else Order(id, "", "", Limit, Buy, 0.0, 0.0, Closed, 0, 0.0)
  }

  predicate Done(o: Order) {
    o.status == Cancelled || o.filled >= o.quantity || o.status == Filled || o.status == Closed
  }

  function Insert(b: Book, o: Order): Book {
    WithIndex(b, KeyOf(o), ZAdd(Index(b, KeyOf(o)), ScoreOf(o), o.id)).(details := b.details[o.id := o])
  }

  function Remove(b: Book, o: Order): Book {
    WithIndex(b, KeyOf(o), ZRem(Index(b, KeyOf(o)), o.id)).(details := b.details - {o.id})
  }

  function Update(b: Book, o: Order): Book {
    if Done(o) then Remove(b, o) else Insert(b, o)
  }

  // The loader writes each row it is given, one after the other.
  function Load(b: Book, rows: seq<Order>): Book
    decreases |rows|
  {
    if rows == [] then b else Load(Insert(b, rows[0]), rows[1..])
  }

  // The orders of one side in the order in which best-level reads would serve
  // them: ascending scores for asks, descending scores for bids.
  function Levels(b: Book, key: BookKey): seq<Order> {
    var z := Index(b, key);
    seq(|z|, i requires 0 <= i < |z| => Detail(b, z[Place(key.side, |z|, i)].member))
  }

  // The position in the sorted set of the i-th level served.
  function Place(side: Side, size: nat, i: nat): nat
    requires i < size
  {
    if side == Sell then i else size - 1 - i
  }

  predicate Ahead(side: Side, a: Order, b: Order) {
    if side == Sell then Before(EntryOf(a), EntryOf(b)) else Before(EntryOf(b), EntryOf(a))
  }

  // --- Agreement with the order table ----------------------------------------

  ghost predicate Keyed(orders: map<OrderId, Order>) {
    forall id :: id in orders ==> orders[id].id == id
  }

  ghost predicate Listed(orders: map<OrderId, Order>, key: BookKey, e: Entry) {
    && e.member in orders
    && orders[e.member].Resting()
    && KeyOf(orders[e.member]) == key
    && EntryOf(orders[e.member]) == e
  }

  // The book holds exactly the resting rows: each in the sorted set of its market
  // and side, at its score, with details equal to the row.
  ghost predicate Agrees(orders: map<OrderId, Order>, b: Book) {
    && Keyed(orders)
    && (forall id :: id in b.details <==> id in orders && orders[id].Resting())
    && (forall id :: id in b.details ==> b.details[id] == orders[id])
    && (forall key :: Sorted(Index(b, key)))
    && (forall key, e :: e in Index(b, key) <==> Listed(orders, key, e))
    && (forall key :: key in b.index ==> b.index[key] != [])
  }

  lemma InsertAgrees(orders: map<OrderId, Order>, b: Book, o: Order)
    requires Agrees(orders, b) && o.Resting()
    requires o.id in orders ==> KeyOf(orders[o.id]) == KeyOf(o)
    ensures Agrees(orders[o.id := o], Insert(b, o))
  {
    var k := KeyOf(o);
    ZAddEntries(Index(b, k), ScoreOf(o), o.id);
    var c := Insert(b, o);
    assert Index(c, k) == ZAdd(Index(b, k), ScoreOf(o), o.id);
    assert forall key :: key != k ==> Index(c, key) == Index(b, key);
  }

  lemma RemoveAgrees(orders: map<OrderId, Order>, b: Book, o: Order)
    requires Agrees(orders, b) && !o.Resting()
    requires o.id in orders ==> KeyOf(orders[o.id]) == KeyOf(o)
    ensures Agrees(orders[o.id := o], Remove(b, o))
  {
    var k := KeyOf(o);
    ZRemEntries(Index(b, k), o.id);
    var c := Remove(b, o);
    assert Index(c, k) == ZRem(Index(b, k), o.id);
    assert forall key :: key != k ==> Index(c, key) == Index(b, key);
  }

  // Writing a row that does not rest, and did not, leaves the book in agreement.
  lemma QuietRowAgrees(orders: map<OrderId, Order>, b: Book, o: Order)
    requires Agrees(orders, b) && !o.Resting()
    requires o.id in orders ==> !orders[o.id].Resting()
    ensures Agrees(orders[o.id := o], b)
  {
  }

  // --- A side as a listing of rows -------------------------------------------

  // The resting rows of one market and side, each once, in the order of service.
  ghost predicate IsListing(orders: map<OrderId, Order>, key: BookKey, view: seq<Order>) {
    && (forall i :: 0 <= i < |view| ==>
          view[i].id in orders && orders[view[i].id] == view[i] && view[i].Resting() && KeyOf(view[i]) == key)
    && (forall id :: id in orders && orders[id].Resting() && KeyOf(orders[id]) == key ==> orders[id] in view)
    && (forall i, j :: 0 <= i < j < |view| ==> Ahead(key.side, view[i], view[j]))
  }

  lemma LevelIsRow(orders: map<OrderId, Order>, b: Book, key: BookKey, i: nat)
    requires Agrees(orders, b) && i < |Index(b, key)|
    ensures var z, l := Index(b, key), Levels(b, key)[i];
      && EntryOf(l) == z[Place(key.side, |z|, i)]
      && l.id in orders && orders[l.id] == l && l.Resting() && KeyOf(l) == key
  {
    var z := Index(b, key);
    var e := z[Place(key.side, |z|, i)];
    assert e in z;
    assert Listed(orders, key, e);
    assert Levels(b, key)[i] == Detail(b, e.member);
  }

  lemma RowIsLevel(orders: map<OrderId, Order>, b: Book, key: BookKey, id: OrderId)
    requires Agrees(orders, b)
    requires id in orders && orders[id].Resting() && KeyOf(orders[id]) == key
    ensures orders[id] in Levels(b, key)
  {
    var z := Index(b, key);
    assert Listed(orders, key, EntryOf(orders[id]));
    var p :| 0 <= p < |z| && z[p] == EntryOf(orders[id]);
    var i := Place(key.side, |z|, p);
    LevelIsRow(orders, b, key, i);
    assert Levels(b, key)[i] in Levels(b, key);
  }

  lemma LevelsAreListing(orders: map<OrderId, Order>, b: Book, key: BookKey)
    requires Agrees(orders, b)
    ensures IsListing(orders, key, Levels(b, key))
  {
    var z, view := Index(b, key), Levels(b, key);
    forall i | 0 <= i < |view|
      ensures EntryOf(view[i]) == z[Place(key.side, |z|, i)]
      ensures view[i].id in orders && orders[view[i].id] == view[i] && view[i].Resting() && KeyOf(view[i]) == key
    {
      LevelIsRow(orders, b, key, i);
    }
    forall id | id in orders && orders[id].Resting() && KeyOf(orders[id]) == key
      ensures orders[id] in view
    {
      RowIsLevel(orders, b, key, id);
    }
  }

  // There is only one such listing, so any two ways of producing it agree.
  lemma {:induction false} OrderedUnique(side: Side, a: seq<Order>, b: seq<Order>)
    requires forall i, j :: 0 <= i < j < |a| ==> Ahead(side, a[i], a[j])
    requires forall i, j :: 0 <= i < j < |b| ==> Ahead(side, b[i], b[j])
    requires forall o :: o in a <==> o in b
    ensures a == b
  {
    if a != [] {
      assert a[0] in b;
      FrontAndTail(side, a);
      FrontAndTail(side, b);
      assert b[0] in b;
      assert a[0] == b[0];
      OrderedUnique(side, a[1..], b[1..]);
      assert a == [a[0]] + a[1..] && b == [b[0]] + b[1..];
    } else {
      SomeOrder(b);
    }
  }

  lemma SomeOrder(view: seq<Order>)
    ensures view == [] || exists o :: o in view
  {
    if view != [] { assert view[0] in view; }
  }

  lemma FrontAndTail(side: Side, a: seq<Order>)
    requires a != []
    requires forall i, j :: 0 <= i < j < |a| ==> Ahead(side, a[i], a[j])
    ensures forall o :: o in a ==> o == a[0] || Ahead(side, a[0], o)
    ensures forall o :: o in a[1..] <==> o in a && o != a[0]
  {
    assert forall o :: o in a <==> o == a[0] || o in a[1..];
  }

  lemma ListingUnique(orders: map<OrderId, Order>, key: BookKey, a: seq<Order>, b: seq<Order>)
    requires IsListing(orders, key, a) && IsListing(orders, key, b)
    ensures a == b
  {
    forall o ensures o in a <==> o in b {
      if o in a { var i :| 0 <= i < |a| && a[i] == o; assert orders[o.id] in b; }
      if o in b { var i :| 0 <= i < |b| && b[i] == o; assert orders[o.id] in a; }
    }
    OrderedUnique(key.side, a, b);
  }

  class RedisBook {
    var index: map<BookKey, seq<Entry>>
    var details: map<OrderId, Order>

    function Contents(): Book
      reads this
    {
      Book(index, details)
    }

    constructor ()
      ensures Contents() == EMPTY
    {
      index, details := map[], map[];
    }

    constructor Copy(other: RedisBook)
      ensures Contents() == other.Contents()
    {
      index, details := other.index, other.details;
    }

    // BestAskFromRedis and BestBidFromRedis: ZRANGE 0 0 on the sell side, ZREVRANGE
    // 0 0 on the buy side; no entry is the error that ends a matching loop.
    method BestLevel(times: TimeRead, marketId: MarketId, side: Side) returns (best: Option<Order>)
      ensures var view := Levels(Contents(), BookKey(marketId, side));
        best == if view == [] then None else Some(AsRead(times, view[0]))
    {
      var key := BookKey(marketId, side);
      if key !in index || index[key] == [] { return None; }
      var z := index[key];
      var entry := if side == Sell then z[0] else z[|z| - 1];
      var order := Detail(Contents(), entry.member);
      if times == Undecoded { order := order.(createdAt := ZERO_TIME_MILLIS); }
      best := Some(order);
    }

    method SetIndex(key: BookKey, z: seq<Entry>)
      modifies this`index
      ensures Contents() == WithIndex(old(Contents()), key, z)
    {
      index := if z == [] then index - {key} else index[key := z];
    }

    method UpdateOrderInRedis(order: Order)
      modifies this
      ensures Contents() == Update(old(Contents()), order)
    {
      var key := KeyOf(order);
      if Done(order) {
        SetIndex(key, ZRem(Index(Contents(), key), order.id));
        details := details - {order.id};
      } else {
        details := details[order.id := order];
        SetIndex(key, ZAdd(Index(Contents(), key), ScoreOf(order), order.id));
      }
    }

    method InserOrderToRedis(order: Order)
      modifies this
      ensures Contents() == Insert(old(Contents()), order)
    {
      var key := KeyOf(order);
      details := details[order.id := order];
      SetIndex(key, ZAdd(Index(Contents(), key), ScoreOf(order), order.id));
    }

    // The rows are the answer of GetAllActiveOrders.
    method LoadOrderBookToRedis(rows: seq<Order>)
      modifies this
      ensures Contents() == Load(old(Contents()), rows)
    {
      for i := 0 to |rows|
        invariant Load(Contents(), rows[i..]) == Load(old(Contents()), rows)
      {
        var o := rows[i];
        assert rows[i..][1..] == rows[i + 1..];
        SetIndex(KeyOf(o), ZAdd(Index(Contents(), KeyOf(o)), ScoreOf(o), o.id));
        details := details[o.id := o];
      }
    }
  }

  // --- The book is determined by the table ------------------------------------

  lemma AgreementIsUnique(orders: map<OrderId, Order>, b: Book, c: Book)
    requires Agrees(orders, b) && Agrees(orders, c)
    ensures b == c
  {
    forall key ensures Index(b, key) == Index(c, key) {
      forall e ensures e in Index(b, key) <==> e in Index(c, key) {
        assert e in Index(b, key) <==> Listed(orders, key, e);
        assert e in Index(c, key) <==> Listed(orders, key, e);
      }
      SortedUnique(Index(b, key), Index(c, key));
    }
    assert forall key :: key in b.index <==> Index(b, key) != [];
    assert forall key :: key in c.index <==> Index(c, key) != [];
    assert b.index == c.index;
    assert b.details == c.details;
  }
}
