// The matching loops (internal/matching/matchingengine.go).
//
// Each loop repeatedly reads the best opposite level and fills against it. The
// reads go to Redis, which is written only after the transaction has committed,
// so as written every read of one loop sees the same level: ReadMode.Stale. The
// loops are evidently meant for a book in which the next read sees the earlier
// fills: ReadMode.Fresh. Both are modelled, and differ in nothing else.

module Matching {
  import opened Models
  import opened Sums
  import opened OrderBook

  datatype ReadMode = Stale | Fresh

  // rest is what the next read would serve when the loop ends.
  datatype OrderResult = OrderResult(
    incoming: Order,
    updated: seq<Order>,
    trades: seq<Trade>,
    rest: seq<Order>)

  // The assets that the request names; they go into every trade.
  datatype Pair = Pair(base: Asset, quote: Asset)

  const INFINITE_QUANTITY: real := 1000000000000000000.0

  // A level that a fill can make progress on.
  predicate LiveLevel(l: Order) { l.price > 0.0 && l.Remaining() > 0.0 }

  ghost predicate Live(view: seq<Order>) {
    forall i :: 0 <= i < |view| ==> LiveLevel(view[i])
  }

  function Opposite(side: Side): Side { if side == Buy then Sell else Buy }

  // Only a limit order refuses a level; the comparisons are those that break the loop.
  predicate Crosses(o: Order, level: Order) {
    match o.kind
    case Market => true
    case Limit => if o.side == Buy then !(level.price > o.price) else !(level.price < o.price)
  }

  function Hit(level: Order, quantity: real): Order {
    var filled := level.filled + quantity;
    level.(filled := filled, status := if filled == level.quantity then Filled else PartiallyFilled)
  }

  function TradeOf(id: OrderId, side: Side, level: Order, quantity: real, pair: Pair): Trade {
    if side == Buy then Trade(id, level.id, level.price, quantity, pair.base, pair.quote, "", "")
    else Trade(level.id, id, level.price, quantity, pair.base, pair.quote, "", "")
  }

  function FillAgainstLevel(incoming: Order, level: Order, pair: Pair): (Order, Order, Trade) {
    var quantity := Min(incoming.Remaining(), level.Remaining());
    (incoming.(filled := incoming.filled + quantity),
     Hit(level, quantity),
     TradeOf(incoming.id, incoming.side, level, quantity, pair))
  }

  // A market buy carries the money still to be spent in its price.
  function FillForMarketBuy(incoming: Order, level: Order, pair: Pair): (Order, Order, Trade)
    requires level.price > 0.0
  {
    var quantity := Min(incoming.price / level.price, level.Remaining());
    (incoming.(filled := incoming.filled + quantity, price := incoming.price - level.price * quantity),
     Hit(level, quantity),
     TradeOf(incoming.id, Buy, level, quantity, pair))
  }

  // What the next read serves after the best level has become `hit`.
  function NextView(mode: ReadMode, view: seq<Order>, hit: Order): seq<Order>
    requires view != []
  {
    match mode
    case Stale => view
    case Fresh => if Done(hit) then view[1..] else [hit] + view[1..]
  }

  // --- Termination ------------------------------------------------------------

  function Ceiling(x: real): int { -((-x).Floor) }

  // How many more fills a loop can make: reading fresh, each fill ends the order
  // or removes a level; reading stale, each but the last takes one full portion.
  function Rounds(mode: ReadMode, want: real, view: seq<Order>, portion: real): nat
    requires portion > 0.0
  {
    if want <= 0.0 || view == [] then 0
    else match mode
      case Fresh => |view|
      case Stale => CeilingPositive(want, portion); Ceiling(want / portion)
  }

  lemma QuotientIs(a: real, x: real, y: real)
    requires y > 0.0 && a * y == x
    ensures x / y == a
  {
    assert (x / y - a) * y == 0.0;
  }

  lemma CeilingPositive(x: real, y: real)
    requires x > 0.0 && y > 0.0
    ensures Ceiling(x / y) >= 1
    ensures x <= y ==> Ceiling(x / y) == 1
    ensures x > y ==> Ceiling((x - y) / y) == Ceiling(x / y) - 1
  {
    assert x / y > 0.0;
    if x <= y {
      assert x / y <= 1.0;
    } else {
      QuotientIs(x / y - 1.0, x - y, y);
    }
  }

  function Portion(view: seq<Order>): real {
    if view == [] || view[0].Remaining() <= 0.0 then 1.0 else view[0].Remaining()
  }

  function CostPortion(view: seq<Order>): (r: real)
    ensures r > 0.0
  {
    if view == [] || view[0].price * view[0].Remaining() <= 0.0 then 1.0
    else view[0].price * view[0].Remaining()
  }

  // One fill of a loop that wants a quantity makes progress.
  lemma FillProgress(mode: ReadMode, o: Order, view: seq<Order>, pair: Pair)
    requires Live(view) && view != [] && o.filled < o.quantity
    ensures var (incoming, hit, trade) := FillAgainstLevel(o, view[0], pair);
      var next := NextView(mode, view, hit);
      && Live(next)
      && 0.0 < trade.quantity <= view[0].Remaining()
      && incoming.filled <= incoming.quantity
      && Rounds(mode, incoming.Remaining(), next, Portion(next)) < Rounds(mode, o.Remaining(), view, Portion(view))
  {
    var (incoming, hit, trade) := FillAgainstLevel(o, view[0], pair);
    assert LiveLevel(view[0]);
    CeilingPositive(o.Remaining(), Portion(view));
  }

  // Either the money ends inside the level, and to the last cent, or the level does.
  lemma SpendAtLevel(budget: real, price: real, left: real)
    requires budget > 0.0 && price > 0.0 && left > 0.0
    ensures price * left > 0.0
    ensures var quantity := Min(budget / price, left);
      && 0.0 < quantity <= left
      && (quantity < left ==> budget == price * quantity && budget < price * left)
      && (quantity == left ==> budget >= price * left)
  {
    var a := budget / price;
    assert a * price == budget;
    assert a > 0.0;
    if a < left {
      assert (left - a) * price > 0.0;
    } else {
      assert (a - left) * price >= 0.0;
    }
  }

  lemma SpendFacts(o: Order, level: Order, pair: Pair)
    requires LiveLevel(level) && o.price > 0.0
    ensures var (incoming, hit, trade) := FillForMarketBuy(o, level, pair);
      var left := level.price * level.Remaining();
      && left > 0.0
      && 0.0 < trade.quantity <= level.Remaining()
      && (if Done(hit) then o.price >= left && incoming.price == o.price - left
          else o.price < left && incoming.price == 0.0)
      && (!Done(hit) ==> LiveLevel(hit))
  {
    SpendAtLevel(o.price, level.price, level.Remaining());
  }

  // One round less is left once a portion has been taken off, none once nothing is wanted.
  lemma BudgetRound(mode: ReadMode, want: real, view: seq<Order>, portion: real, left: real, next: seq<Order>,
                    nextPortion: real)
    requires want > 0.0 && view != [] && portion > 0.0 && nextPortion > 0.0
    requires mode == Stale ==> next == view && nextPortion == portion
    requires left == 0.0 || (left == want - portion && (mode == Fresh ==> next == view[1..]))
    ensures Rounds(mode, left, next, nextPortion) < Rounds(mode, want, view, portion)
  {
    CeilingPositive(want, portion);
  }

  // One fill of a market buy makes progress.
  lemma SpendProgress(mode: ReadMode, o: Order, view: seq<Order>, pair: Pair)
    requires Live(view) && view != [] && o.price > 0.0
    requires LiveLevel(view[0])
    ensures var (incoming, hit, trade) := FillForMarketBuy(o, view[0], pair);
      var next := NextView(mode, view, hit);
      && Live(next)
      && Rounds(mode, incoming.price, next, CostPortion(next)) < Rounds(mode, o.price, view, CostPortion(view))
  {
    var (incoming, hit, trade) := FillForMarketBuy(o, view[0], pair);
    var next := NextView(mode, view, hit);
    SpendFacts(o, view[0], pair);
    BudgetRound(mode, o.price, view, CostPortion(view), incoming.price, next, CostPortion(next));
  }

  // Reading fresh, a fill takes all that the order still wants or removes the level, ...
  lemma FillEndsOrderOrLevel(o: Order, view: seq<Order>, pair: Pair)
    requires Live(view) && view != [] && o.filled < o.quantity
    ensures var (incoming, hit, trade) := FillAgainstLevel(o, view[0], pair);
      incoming.filled == incoming.quantity || (NextView(Fresh, view, hit) == view[1..] && hit.status == Filled)
  {
  }

  // ... or all the money there still is.
  lemma SpendEndsMoneyOrLevel(o: Order, view: seq<Order>, pair: Pair)
    requires Live(view) && view != [] && LiveLevel(view[0]) && o.price > 0.0
    ensures var (incoming, hit, trade) := FillForMarketBuy(o, view[0], pair);
      incoming.price == 0.0 || (NextView(Fresh, view, hit) == view[1..] && hit.status == Filled)
  {
    SpendFacts(o, view[0], pair);
  }

  // --- The loops as functions --------------------------------------------------

  function Then(incoming: Order, hit: Order, trade: Trade, r: OrderResult): OrderResult {
    r.(updated := [incoming, hit] + r.updated, trades := [trade] + r.trades)
  }

  function MatchByQuantity(mode: ReadMode, o: Order, view: seq<Order>, pair: Pair): OrderResult
    requires Live(view)
    decreases Rounds(mode, o.Remaining(), view, Portion(view))
  {
    if !(o.filled < o.quantity) || view == [] || !Crosses(o, view[0]) then OrderResult(o, [], [], view)
    else
      FillProgress(mode, o, view, pair);
      var (incoming, hit, trade) := FillAgainstLevel(o, view[0], pair);
      Then(incoming, hit, trade, MatchByQuantity(mode, incoming, NextView(mode, view, hit), pair))
  }

  function MatchByBudget(mode: ReadMode, o: Order, view: seq<Order>, pair: Pair): OrderResult
    requires Live(view)
    decreases Rounds(mode, o.price, view, CostPortion(view))
  {
    if !(o.price > 0.0) || view == [] then OrderResult(o, [], [], view)
    else
      assert LiveLevel(view[0]);
      SpendProgress(mode, o, view, pair);
      var (incoming, hit, trade) := FillForMarketBuy(o, view[0], pair);
      Then(incoming, hit, trade, MatchByBudget(mode, incoming, NextView(mode, view, hit), pair))
  }

  function LimitStatus(o: Order): Status {
    if o.filled == o.quantity then Filled else if o.filled > 0.0 then PartiallyFilled else Open
  }

  function MarketStatus(o: Order): Status {
    if o.filled == o.quantity then Filled else Cancelled
  }

  function MatchLimitOrder(mode: ReadMode, o: Order, view: seq<Order>, pair: Pair): OrderResult
    requires Live(view)
  {
    var r := MatchByQuantity(mode, o, view, pair);
    r.(incoming := r.incoming.(status := LimitStatus(r.incoming)))
  }

  // A market buy works with a quantity of 1e18, and only once a trade has been
  // made does that quantity reach the result.
  function MatchMarketOrder(mode: ReadMode, o: Order, view: seq<Order>, pair: Pair): OrderResult
    requires Live(view)
  {
    if o.side == Sell then
      var r := MatchByQuantity(mode, o, view, pair);
      r.(incoming := r.incoming.(status := MarketStatus(r.incoming)))
    else
      var r := MatchByBudget(mode, o.(quantity := INFINITE_QUANTITY), view, pair);
      var last := if r.trades == [] then o else r.incoming;
      r.(incoming := last.(status := MarketStatus(last)))
  }

  function Match(mode: ReadMode, o: Order, view: seq<Order>, pair: Pair): OrderResult
    requires Live(view)
  {
    if o.kind == Market then MatchMarketOrder(mode, o, view, pair) else MatchLimitOrder(mode, o, view, pair)
  }

  // --- What every loop does to the book ------------------------------------------

  // What a trade depends on in the incoming order.
  datatype Taker = Taker(id: OrderId, side: Side, bound: Option<real>)

  function TakerOf(o: Order): Taker {
    Taker(o.id, o.side, if o.kind == Limit then Some(o.price) else None)
  }

  predicate Within(taker: Taker, price: real) {
    taker.bound.Some? ==> if taker.side == Buy then price <= taker.bound.value else price >= taker.bound.value
  }

  // One fill: a positive part of what the level has left, at the level's price,
  // which the taker's limit allows, recorded on the level.
  predicate IsHit(taker: Taker, level: Order, trade: Trade, hit: Order, pair: Pair) {
    && 0.0 < trade.quantity <= level.Remaining()
    && trade == TradeOf(taker.id, taker.side, level, trade.quantity, pair)
    && hit == Hit(level, trade.quantity)
    && Within(taker, level.price)
  }

  // The trades fill against the view from its front. Reading fresh, each trade
  // takes the next level; reading stale, all of them take the first. Each fill
  // records the incoming order and the level, in that order.
  ghost predicate Sweeps(mode: ReadMode, taker: Taker, view: seq<Order>, updated: seq<Order>, trades: seq<Trade>,
                         pair: Pair)
    decreases |trades|
  {
    if trades == [] then updated == []
    else
      && view != [] && |updated| >= 2
      && updated[0].id == taker.id
      && IsHit(taker, view[0], trades[0], updated[1], pair)
      && Sweeps(mode, taker, if mode == Stale then view else view[1..], updated[2..], trades[1..], pair)
  }

  function QuantityOf(): Trade -> real { (t: Trade) => t.quantity }

  function CostOf(): Trade -> real { (t: Trade) => t.price * t.quantity }

  function Volume(trades: seq<Trade>): real { Total(trades, QuantityOf()) }

  function Cost(trades: seq<Trade>): real { Total(trades, CostOf()) }

  lemma TotalsThen(trade: Trade, trades: seq<Trade>)
    ensures Volume([trade] + trades) == trade.quantity + Volume(trades)
    ensures Cost([trade] + trades) == trade.price * trade.quantity + Cost(trades)
  {
    assert ([trade] + trades)[1..] == trades;
    assert CostOf()(trade) == trade.price * trade.quantity;
  }

  // One fill put in front of what the rest of the loop does.
  lemma SweepsThen(mode: ReadMode, taker: Taker, view: seq<Order>, incoming: Order, hit: Order, trade: Trade,
                   updated: seq<Order>, trades: seq<Trade>, pair: Pair)
    requires view != [] && incoming.id == taker.id
    requires IsHit(taker, view[0], trade, hit, pair)
    requires Sweeps(mode, taker, if mode == Stale then view else view[1..], updated, trades, pair)
    ensures Sweeps(mode, taker, view, [incoming, hit] + updated, [trade] + trades, pair)
  {
    assert ([trade] + trades)[1..] == trades;
    assert ([incoming, hit] + updated)[2..] == updated;
  }

  lemma QuantityRoundFacts(mode: ReadMode, o: Order, view: seq<Order>, pair: Pair)
    returns (incoming: Order, hit: Order, trade: Trade, next: seq<Order>)
    requires Live(view) && view != [] && o.filled < o.quantity && Crosses(o, view[0])
    ensures (incoming, hit, trade) == FillAgainstLevel(o, view[0], pair)
    ensures next == NextView(mode, view, hit) && Live(next)
    ensures IsHit(TakerOf(o), view[0], trade, hit, pair)
    ensures incoming == o.(filled := o.filled + trade.quantity) && incoming.filled <= incoming.quantity
    ensures mode == Fresh ==> Done(hit) || incoming.filled == incoming.quantity
    ensures MatchByQuantity(mode, o, view, pair)
         == Then(incoming, hit, trade, MatchByQuantity(mode, incoming, next, pair))
    ensures Rounds(mode, incoming.Remaining(), next, Portion(next)) < Rounds(mode, o.Remaining(), view, Portion(view))
  {
    FillProgress(mode, o, view, pair);
    var (i, h, t) := FillAgainstLevel(o, view[0], pair);
    incoming, hit, trade := i, h, t;
    next := NextView(mode, view, hit);
  }

  // A loop that wants a quantity sweeps the view, fills what its trades say and
  // no more than it wants, and ends only when it is filled or nothing crosses.
  lemma {:induction false} QuantityFacts(mode: ReadMode, o: Order, view: seq<Order>, pair: Pair)
    requires Live(view) && o.filled <= o.quantity
    ensures var r := MatchByQuantity(mode, o, view, pair);
      && Sweeps(mode, TakerOf(o), view, r.updated, r.trades, pair)
      && r.incoming == o.(filled := o.filled + Volume(r.trades))
      && r.incoming.filled <= o.quantity
      && Live(r.rest)
      && (r.incoming.filled == o.quantity || r.rest == [] || !Crosses(o, r.rest[0]))
    decreases Rounds(mode, o.Remaining(), view, Portion(view))
  {
    if o.filled < o.quantity && view != [] && Crosses(o, view[0]) {
      var incoming, hit, trade, next := QuantityRoundFacts(mode, o, view, pair);
      var r := MatchByQuantity(mode, incoming, next, pair);
      QuantityFacts(mode, incoming, next, pair);
      TotalsThen(trade, r.trades);
      SweepsThen(mode, TakerOf(o), view, incoming, hit, trade, r.updated, r.trades, pair);
    }
  }

  // What one round of a market buy does, with its arithmetic done.
  lemma BudgetRoundFacts(mode: ReadMode, o: Order, view: seq<Order>, pair: Pair)
    returns (incoming: Order, hit: Order, trade: Trade, next: seq<Order>)
    requires Live(view) && o.price > 0.0 && o.kind == Market && o.side == Buy && view != []
    ensures (incoming, hit, trade) == FillForMarketBuy(o, view[0], pair)
    ensures next == NextView(mode, view, hit) && Live(next)
    ensures IsHit(TakerOf(o), view[0], trade, hit, pair)
    ensures incoming == o.(filled := o.filled + trade.quantity, price := o.price - trade.price * trade.quantity)
    ensures incoming.price >= 0.0 && (Done(hit) || incoming.price == 0.0)
    ensures MatchByBudget(mode, o, view, pair) == Then(incoming, hit, trade, MatchByBudget(mode, incoming, next, pair))
    ensures Rounds(mode, incoming.price, next, CostPortion(next)) < Rounds(mode, o.price, view, CostPortion(view))
  {
    assert LiveLevel(view[0]);
    SpendProgress(mode, o, view, pair);
    SpendFacts(o, view[0], pair);
    var (i, h, t) := FillForMarketBuy(o, view[0], pair);
    incoming, hit, trade := i, h, t;
    next := NextView(mode, view, hit);
  }

  // A market buy likewise: money spent and money left add up to the amount.
  lemma {:induction false} BudgetFacts(mode: ReadMode, o: Order, view: seq<Order>, pair: Pair)
    requires Live(view) && o.price >= 0.0 && o.kind == Market && o.side == Buy
    ensures var r := MatchByBudget(mode, o, view, pair);
      && Sweeps(mode, TakerOf(o), view, r.updated, r.trades, pair)
      && r.incoming == o.(filled := o.filled + Volume(r.trades), price := o.price - Cost(r.trades))
      && r.incoming.price >= 0.0
      && Live(r.rest)
      && (r.incoming.price == 0.0 || r.rest == [])
    decreases Rounds(mode, o.price, view, CostPortion(view))
  {
    if o.price > 0.0 && view != [] {
      var incoming, hit, trade, next := BudgetRoundFacts(mode, o, view, pair);
      BudgetFacts(mode, incoming, next, pair);
      var r := MatchByBudget(mode, incoming, next, pair);
      TotalsThen(trade, r.trades);
      SweepsThen(mode, TakerOf(o), view, incoming, hit, trade, r.updated, r.trades, pair);
    }
  }
}
