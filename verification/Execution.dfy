// What the matching loops achieve: limit matching against a closed form, the
// stale loop against the fresh one, and best execution of market orders.

module Execution {
  import opened Models
  import opened OrderBook
  import opened Matching

  // How many levels at the front of the view cross the order.
  function CrossingRun(o: Order, view: seq<Order>): (n: nat)
    ensures n <= |view|
  {
    if view == [] || !Crosses(o, view[0]) then 0 else 1 + CrossingRun(o, view[1..])
  }

  function Depth(view: seq<Order>): real {
    if view == [] then 0.0 else view[0].Remaining() + Depth(view[1..])
  }

  lemma {:induction false} DepthNonNegative(view: seq<Order>)
    requires Live(view)
    ensures Depth(view) >= 0.0
  {
    if view != [] {
      assert LiveLevel(view[0]);
      DepthNonNegative(view[1..]);
    }
  }

  // The levels that are left when the first n have been filled, the last of them
  // perhaps in part.
  function Leftover(view: seq<Order>, n: nat, last: Order): seq<Order>
    requires n <= |view|
  {
    if n > 0 && !Done(last) then [last] + view[n..] else view[n..]
  }

  // The closed form of a fresh quantity loop.
  ghost predicate TakesPrefix(o: Order, view: seq<Order>, pair: Pair, r: OrderResult) {
    var n := |r.trades|;
    && |r.updated| == 2 * n
    && n <= |view|
    && (forall i :: 0 <= i < n ==> IsHit(TakerOf(o), view[i], r.trades[i], r.updated[2 * i + 1], pair))
    && (forall i :: 0 <= i < n - 1 ==> r.trades[i].quantity == view[i].Remaining())
    && r.rest == Leftover(view, n, if n > 0 then r.updated[2 * n - 1] else o)
  }

  lemma FreshRound(o: Order, view: seq<Order>, pair: Pair)
    returns (incoming: Order, hit: Order, trade: Trade, next: seq<Order>)
    requires Live(view) && view != [] && Crosses(o, view[0]) && o.filled < o.quantity
    ensures incoming == o.(filled := o.filled + trade.quantity) && incoming.filled <= incoming.quantity
    ensures IsHit(TakerOf(o), view[0], trade, hit, pair)
    ensures Live(next)
    ensures MatchByQuantity(Fresh, o, view, pair)
         == Then(incoming, hit, trade, MatchByQuantity(Fresh, incoming, next, pair))
    ensures if Done(hit) then trade.quantity == view[0].Remaining() && next == view[1..]
            else trade.quantity == o.Remaining() <= view[0].Remaining() && next == [hit] + view[1..]
  {
    FillProgress(Fresh, o, view, pair);
    var (i, h, t) := FillAgainstLevel(o, view[0], pair);
    incoming, hit, trade, next := i, h, t, NextView(Fresh, view, h);
  }

  // A match that ends inside its first level.
  lemma PrefixOfOne(o: Order, view: seq<Order>, pair: Pair, incoming: Order, hit: Order, trade: Trade)
    requires view != [] && IsHit(TakerOf(o), view[0], trade, hit, pair) && !Done(hit)
    ensures TakesPrefix(o, view, pair, Then(incoming, hit, trade, OrderResult(incoming, [], [], [hit] + view[1..])))
  {
  }

  lemma FirstOfRun(o: Order, p: Order, view: seq<Order>)
    requires Live(view) && view != [] && Crosses(o, view[0]) && TakerOf(o) == TakerOf(p)
    ensures CrossingRun(o, view) == 1 + CrossingRun(p, view[1..])
    ensures Depth(view[..CrossingRun(o, view)]) == view[0].Remaining() + Depth(view[1..][..CrossingRun(p, view[1..])])
    ensures Depth(view[1..][..CrossingRun(p, view[1..])]) >= 0.0
  {
    SameRun(o, p, view[1..]);
    var run := CrossingRun(o, view);
    assert view[..run][1..] == view[1..][..run - 1];
    DepthNonNegative(view[1..][..run - 1]);
  }

  // The volume is all the order wants or all that the crossing run offers, whichever is less.
  lemma {:induction false} FreshVolume(o: Order, view: seq<Order>, pair: Pair)
    requires Live(view) && o.filled <= o.quantity
    ensures Volume(MatchByQuantity(Fresh, o, view, pair).trades)
         == Min(o.Remaining(), Depth(view[..CrossingRun(o, view)]))
    decreases |view|
  {
    if o.filled < o.quantity && view != [] && Crosses(o, view[0]) {
      var incoming, hit, trade, next := FreshRound(o, view, pair);
      FirstOfRun(o, incoming, view);
      TotalsThen(trade, MatchByQuantity(Fresh, incoming, next, pair).trades);
      if Done(hit) { FreshVolume(incoming, view[1..], pair); }
    } else {
      DepthNonNegative(view[..CrossingRun(o, view)]);
    }
  }

  lemma {:induction false} FreshPrefix(o: Order, view: seq<Order>, pair: Pair)
    requires Live(view) && o.filled <= o.quantity
    ensures var r := MatchByQuantity(Fresh, o, view, pair);
      TakesPrefix(o, view, pair, r) && |r.trades| <= CrossingRun(o, view)
    decreases |view|
  {
    if o.filled < o.quantity && view != [] && Crosses(o, view[0]) {
      var incoming, hit, trade, next := FreshRound(o, view, pair);
      var r := MatchByQuantity(Fresh, incoming, next, pair);
      SameRun(o, incoming, view[1..]);
      if Done(hit) {
        FreshPrefix(incoming, view[1..], pair);
        PrefixThen(o, view, pair, incoming, hit, trade, r);
      } else {
        PrefixOfOne(o, view, pair, incoming, hit, trade);
      }
    }
  }

  // Reading fresh, the trades take the levels of the view in order, each once and
  // at its own price; all but the last are taken whole; and the volume is all the
  // order wants or all that the crossing run offers, whichever is less.
  lemma FreshTakesPrefix(o: Order, view: seq<Order>, pair: Pair)
    requires Live(view) && o.filled <= o.quantity
    ensures var r := MatchByQuantity(Fresh, o, view, pair);
      && TakesPrefix(o, view, pair, r)
      && |r.trades| <= CrossingRun(o, view)
      && Volume(r.trades) == Min(o.Remaining(), Depth(view[..CrossingRun(o, view)]))
  {
    FreshPrefix(o, view, pair);
    FreshVolume(o, view, pair);
  }

  lemma {:induction false} SameRun(o: Order, p: Order, view: seq<Order>)
    requires TakerOf(o) == TakerOf(p)
    ensures CrossingRun(o, view) == CrossingRun(p, view)
  {
    if view != [] { SameRun(o, p, view[1..]); }
  }

  lemma PrefixThen(o: Order, view: seq<Order>, pair: Pair, incoming: Order, hit: Order, trade: Trade, r: OrderResult)
    requires view != [] && TakerOf(o) == TakerOf(incoming)
    requires IsHit(TakerOf(o), view[0], trade, hit, pair) && Done(hit)
    requires trade.quantity == view[0].Remaining()
    requires TakesPrefix(incoming, view[1..], pair, r)
    ensures TakesPrefix(o, view, pair, Then(incoming, hit, trade, r))
  {
    var s := Then(incoming, hit, trade, r);
    forall i | 0 <= i < |s.trades|
      ensures IsHit(TakerOf(o), view[i], s.trades[i], s.updated[2 * i + 1], pair)
      ensures i < |s.trades| - 1 ==> s.trades[i].quantity == view[i].Remaining()
    {
      if i > 0 {
        assert s.trades[i] == r.trades[i - 1] && view[i] == view[1..][i - 1];
        assert s.updated[2 * i + 1] == r.updated[2 * (i - 1) + 1];
      }
    }
  }

  // --- The stale loop against the fresh one -----------------------------------

  ghost predicate DistinctIds(view: seq<Order>) {
    forall i, j :: 0 <= i < j < |view| ==> view[i].id != view[j].id
  }

  ghost predicate SameEffect(a: OrderResult, b: OrderResult) {
    a.incoming == b.incoming && a.updated == b.updated && a.trades == b.trades
  }

  // The first read decides it.
  predicate OneLevelSuffices(o: Order, view: seq<Order>) {
    view == [] || !Crosses(o, view[0]) || o.Remaining() <= view[0].Remaining()
  }

  lemma StaleRound(o: Order, view: seq<Order>, pair: Pair) returns (incoming: Order, hit: Order, trade: Trade)
    requires Live(view) && view != [] && LiveLevel(view[0]) && Crosses(o, view[0]) && o.filled < o.quantity
    ensures incoming == o.(filled := o.filled + trade.quantity)
    ensures IsHit(TakerOf(o), view[0], trade, hit, pair)
    ensures MatchByQuantity(Stale, o, view, pair)
         == Then(incoming, hit, trade, MatchByQuantity(Stale, incoming, view, pair))
    ensures Rounds(Stale, incoming.Remaining(), view, Portion(view)) < Rounds(Stale, o.Remaining(), view, Portion(view))
    ensures incoming.filled < incoming.quantity ==>
      trade.quantity == view[0].Remaining()
      && Ceiling(o.Remaining() / view[0].Remaining()) == Ceiling(incoming.Remaining() / view[0].Remaining()) + 1
    ensures incoming.filled >= incoming.quantity ==>
      incoming.filled == incoming.quantity
      && Ceiling(o.Remaining() / view[0].Remaining()) == 1
  {
    FillProgress(Stale, o, view, pair);
    var (i, h, t) := FillAgainstLevel(o, view[0], pair);
    incoming, hit, trade := i, h, t;
    CeilingPositive(o.Remaining(), view[0].Remaining());
  }

  lemma StaleTwice(o: Order, view: seq<Order>, pair: Pair)
    requires Live(view) && o.filled <= o.quantity && !OneLevelSuffices(o, view)
    ensures var s := MatchByQuantity(Stale, o, view, pair);
      |s.trades| >= 2 && |s.updated| >= 4 && s.updated[3].id == view[0].id
  {
    assert LiveLevel(view[0]);
    var incoming, hit, trade := StaleRound(o, view, pair);
    var incoming', hit', trade' := StaleRound(incoming, view, pair);
    assert MatchByQuantity(Stale, o, view, pair).updated[3] == MatchByQuantity(Stale, incoming, view, pair).updated[1];
  }

  lemma FreshSecond(o: Order, view: seq<Order>, pair: Pair)
    requires Live(view) && o.filled <= o.quantity
    ensures var f := MatchByQuantity(Fresh, o, view, pair);
      && |f.updated| == 2 * |f.trades|
      && (|f.trades| >= 2 ==> |view| >= 2 && |f.updated| >= 4 && f.updated[3].id == view[1].id)
  {
    FreshTakesPrefix(o, view, pair);
    var f := MatchByQuantity(Fresh, o, view, pair);
    if |f.trades| >= 2 { assert IsHit(TakerOf(o), view[1], f.trades[1], f.updated[2 * 1 + 1], pair); }
  }

  lemma OnceIsSame(o: Order, view: seq<Order>, pair: Pair)
    requires Live(view) && o.filled <= o.quantity && OneLevelSuffices(o, view)
    ensures SameEffect(MatchByQuantity(Stale, o, view, pair), MatchByQuantity(Fresh, o, view, pair))
    ensures |MatchByQuantity(Stale, o, view, pair).trades| <= 1
  {
    if view != [] && Crosses(o, view[0]) && o.filled < o.quantity {
      assert LiveLevel(view[0]);
      var incoming, hit, trade, next := FreshRound(o, view, pair);
      var incoming', hit', trade' := StaleRound(o, view, pair);
    }
  }

  // As written, the loop does what the intended one does exactly when at most one
  // level is involved: nothing crosses, or the best level covers the whole order.
  lemma StaleEqualsFresh(o: Order, view: seq<Order>, pair: Pair)
    requires Live(view) && DistinctIds(view) && o.filled <= o.quantity
    ensures SameEffect(MatchByQuantity(Stale, o, view, pair), MatchByQuantity(Fresh, o, view, pair))
       <==> OneLevelSuffices(o, view)
    ensures |MatchByQuantity(Stale, o, view, pair).trades| <= 1 <==> OneLevelSuffices(o, view)
  {
    if OneLevelSuffices(o, view) {
      OnceIsSame(o, view, pair);
    } else {
      StaleTwice(o, view, pair);
      FreshSecond(o, view, pair);
    }
  }

  // For a market buy, too, the first read decides.
  predicate OneLevelAffords(o: Order, view: seq<Order>) {
    view == [] || o.price <= view[0].price * view[0].Remaining()
  }

  lemma StaleBudgetEqualsFresh(o: Order, view: seq<Order>, pair: Pair)
    requires Live(view) && DistinctIds(view) && o.price >= 0.0 && o.kind == Market && o.side == Buy
    ensures SameEffect(MatchByBudget(Stale, o, view, pair), MatchByBudget(Fresh, o, view, pair)) <==>
      OneLevelAffords(o, view)
    ensures |MatchByBudget(Stale, o, view, pair).trades| <= 1 <==> OneLevelAffords(o, view)
  {
    if view != [] {
      assert LiveLevel(view[0]);
      if o.price > 0.0 {
        MoneyDecides(o, view, pair);
      } else {
        SpendAtLevel(1.0, view[0].price, view[0].Remaining());
      }
    }
  }

  lemma MoneyDecides(o: Order, view: seq<Order>, pair: Pair)
    requires Live(view) && DistinctIds(view) && view != [] && LiveLevel(view[0])
    requires o.price > 0.0 && o.kind == Market && o.side == Buy
    ensures SameEffect(MatchByBudget(Stale, o, view, pair), MatchByBudget(Fresh, o, view, pair)) <==>
      OneLevelAffords(o, view)
    ensures |MatchByBudget(Stale, o, view, pair).trades| <= 1 <==> OneLevelAffords(o, view)
  {
    var incoming, hit, trade, same := BudgetRoundFacts(Stale, o, view, pair);
    var incoming', hit', trade', next := BudgetRoundFacts(Fresh, o, view, pair);
    FirstRoundDecides(o, view, pair, incoming, hit, trade);
    var s, f := MatchByBudget(Stale, incoming, view, pair), MatchByBudget(Fresh, incoming, next, pair);
    if incoming.price > 0.0 {
      SecondHitsDiffer(incoming, view, pair);
      ThenDiffers(incoming, hit, trade, s, f);
    }
  }

  lemma ThenDiffers(incoming: Order, hit: Order, trade: Trade, s: OrderResult, f: OrderResult)
    requires |s.updated| >= 2 && |s.trades| >= 1
    requires f.updated == [] || (|f.updated| >= 2 && f.updated[1] != s.updated[1])
    ensures !SameEffect(Then(incoming, hit, trade, s), Then(incoming, hit, trade, f))
    ensures |Then(incoming, hit, trade, s).trades| >= 2
  {
    if f.updated != [] {
      assert Then(incoming, hit, trade, s).updated[3] == s.updated[1];
      assert Then(incoming, hit, trade, f).updated[3] == f.updated[1];
    }
  }

  lemma FirstRoundDecides(o: Order, view: seq<Order>, pair: Pair, incoming: Order, hit: Order, trade: Trade)
    requires view != [] && LiveLevel(view[0]) && o.price > 0.0
    requires (incoming, hit, trade) == FillForMarketBuy(o, view[0], pair)
    ensures OneLevelAffords(o, view) <==> incoming.price == 0.0
    ensures !OneLevelAffords(o, view) ==> incoming.price > 0.0 && Done(hit)
  {
    SpendFacts(o, view[0], pair);
  }

  // If money is left after the first level, the stale loop hits that level again; the
  // fresh one hits the next, or stops.
  lemma SecondHitsDiffer(o: Order, view: seq<Order>, pair: Pair)
    requires Live(view) && DistinctIds(view) && view != [] && Live(view[1..])
    requires o.price > 0.0 && o.kind == Market && o.side == Buy
    ensures var s, f := MatchByBudget(Stale, o, view, pair), MatchByBudget(Fresh, o, view[1..], pair);
      && |s.trades| >= 1 && |s.updated| >= 2 && s.updated[1].id == view[0].id
      && (f.updated == [] || (|f.updated| >= 2 && f.updated[1].id != view[0].id))
  {
    var incoming, hit, trade, next := BudgetRoundFacts(Stale, o, view, pair);
    if |view| > 1 {
      var incoming', hit', trade', next' := BudgetRoundFacts(Fresh, o, view[1..], pair);
    }
  }

  // All trades take the first level, all but the last in whole portions.
  ghost predicate TakesOneLevel(o: Order, level: Order, pair: Pair, r: OrderResult) {
    var n := |r.trades|;
    && n >= 1
    && |r.updated| == 2 * n
    && (forall i :: 0 <= i < n ==> IsHit(TakerOf(o), level, r.trades[i], r.updated[2 * i + 1], pair))
    && (forall i :: 0 <= i < n - 1 ==> r.trades[i].quantity == level.Remaining())
  }

  lemma OneLevelThen(o: Order, level: Order, pair: Pair, incoming: Order, hit: Order, trade: Trade, r: OrderResult)
    requires TakerOf(o) == TakerOf(incoming)
    requires IsHit(TakerOf(o), level, trade, hit, pair) && trade.quantity == level.Remaining()
    requires TakesOneLevel(incoming, level, pair, r)
    ensures TakesOneLevel(o, level, pair, Then(incoming, hit, trade, r))
  {
    var s := Then(incoming, hit, trade, r);
    forall i | 0 <= i < |s.trades|
      ensures IsHit(TakerOf(o), level, s.trades[i], s.updated[2 * i + 1], pair)
      ensures i < |s.trades| - 1 ==> s.trades[i].quantity == level.Remaining()
    {
      if i > 0 {
        assert s.trades[i] == r.trades[i - 1];
        assert s.updated[2 * i + 1] == r.updated[2 * (i - 1) + 1];
      }
    }
  }

  // Otherwise it fills the order completely against the one resting level, in as
  // many trades as whole portions of that level fit, rounded up; the last trade
  // is what the portions leave over, and it alone is what the level records.
  lemma {:induction false} StaleRepeats(o: Order, view: seq<Order>, pair: Pair)
    requires Live(view) && view != [] && Crosses(o, view[0]) && o.filled < o.quantity
    requires LiveLevel(view[0])
    ensures var r := MatchByQuantity(Stale, o, view, pair);
      && TakesOneLevel(o, view[0], pair, r)
      && |r.trades| == Ceiling(o.Remaining() / view[0].Remaining())
      && Volume(r.trades) == o.Remaining()
      && r.incoming.filled == o.quantity
    decreases Rounds(Stale, o.Remaining(), view, Portion(view))
  {
    var incoming, hit, trade := StaleRound(o, view, pair);
    var t := MatchByQuantity(Stale, incoming, view, pair);
    TotalsThen(trade, t.trades);
    if incoming.filled < incoming.quantity {
      StaleRepeats(incoming, view, pair);
      OneLevelThen(o, view[0], pair, incoming, hit, trade, t);
    }
  }

  // One round of a stale market buy, counted.
  lemma StaleSpendRound(o: Order, view: seq<Order>, pair: Pair) returns (incoming: Order, trade: Trade)
    requires Live(view) && view != [] && LiveLevel(view[0]) && o.price > 0.0 && o.kind == Market && o.side == Buy
    ensures incoming.price == o.price - trade.price * trade.quantity
    ensures incoming.kind == Market && incoming.side == Buy && incoming.price >= 0.0
    ensures var r, t := MatchByBudget(Stale, o, view, pair), MatchByBudget(Stale, incoming, view, pair);
      r.trades == [trade] + t.trades
    ensures Rounds(Stale, incoming.price, view, CostPortion(view)) < Rounds(Stale, o.price, view, CostPortion(view))
    ensures Ceiling(o.price / CostPortion(view))
         == if incoming.price > 0.0 then 1 + Ceiling(incoming.price / CostPortion(view)) else 1
  {
    var i, hit, t, next := BudgetRoundFacts(Stale, o, view, pair);
    incoming, trade := i, t;
    SpendLeaves(o, view, pair);
    SpendCount(o.price, CostPortion(view), i.price);
  }

  lemma SpendLeaves(o: Order, view: seq<Order>, pair: Pair)
    requires view != [] && LiveLevel(view[0]) && o.price > 0.0
    ensures var (incoming, hit, trade) := FillForMarketBuy(o, view[0], pair);
      incoming.price == if o.price < CostPortion(view) then 0.0 else o.price - CostPortion(view)
  {
    SpendFacts(o, view[0], pair);
  }

  lemma SpendCount(want: real, portion: real, left: real)
    requires want > 0.0 && portion > 0.0 && left == if want < portion then 0.0 else want - portion
    ensures Ceiling(want / portion) == if left > 0.0 then 1 + Ceiling(left / portion) else 1
  {
    CeilingPositive(want, portion);
  }

  // A stale market buy likewise spends all its money on the one level, in as many
  // trades as the level's whole cost goes into it, rounded up.
  lemma {:induction false} StaleSpendsAll(o: Order, view: seq<Order>, pair: Pair)
    requires Live(view) && view != [] && o.price >= 0.0 && o.kind == Market && o.side == Buy
    ensures var r := MatchByBudget(Stale, o, view, pair);
      && Cost(r.trades) == o.price
      && |r.trades| == if o.price > 0.0 then Ceiling(o.price / CostPortion(view)) else 0
    decreases Rounds(Stale, o.price, view, CostPortion(view))
  {
    if o.price > 0.0 {
      assert LiveLevel(view[0]);
      var incoming, trade := StaleSpendRound(o, view, pair);
      StaleSpendsAll(incoming, view, pair);
      TotalsThen(trade, MatchByBudget(Stale, incoming, view, pair).trades);
    }
  }

  // What the level records is what was traded on it exactly when one level suffices.
  lemma StaleRecordsVolume(o: Order, view: seq<Order>, pair: Pair)
    requires Live(view) && view != [] && Crosses(o, view[0]) && o.filled < o.quantity
    requires LiveLevel(view[0])
    ensures var r := MatchByQuantity(Stale, o, view, pair);
      && |r.updated| >= 2
      && (r.updated[|r.updated| - 1].filled - view[0].filled == Volume(r.trades) <==> OneLevelSuffices(o, view))
  {
    StaleRepeats(o, view, pair);
    var r := MatchByQuantity(Stale, o, view, pair);
    var n := |r.trades|;
    assert IsHit(TakerOf(o), view[0], r.trades[n - 1], r.updated[2 * (n - 1) + 1], pair);
    if OneLevelSuffices(o, view) {
      CeilingPositive(o.Remaining(), view[0].Remaining());
      TotalsThen(r.trades[0], []);
      assert r.trades == [r.trades[0]];
    }
  }

  // --- Best execution -----------------------------------------------------------

  // Better prices come first.
  ghost predicate PriceOrdered(side: Side, view: seq<Order>) {
    forall i, j :: 0 <= i < j < |view| ==>
      if side == Sell then view[i].price <= view[j].price else view[i].price >= view[j].price
  }

  // Any way at all of taking part of each level.
  ghost predicate Allocation(view: seq<Order>, x: seq<real>) {
    |x| == |view| && forall i :: 0 <= i < |x| ==> 0.0 <= x[i] <= view[i].Remaining()
  }

  function Taken(x: seq<real>): real { if x == [] then 0.0 else x[0] + Taken(x[1..]) }

  function Worth(view: seq<Order>, x: seq<real>): real
    requires |x| == |view|
  {
    if x == [] then 0.0 else view[0].price * x[0] + Worth(view[1..], x[1..])
  }

  // The allocation that trades against the front of a view make.
  function AllocationOf(view: seq<Order>, trades: seq<Trade>): seq<real> {
    seq(|view|, i requires 0 <= i < |view| => if i < |trades| then trades[i].quantity else 0.0)
  }

  lemma AllocationTail(view: seq<Order>, trades: seq<Trade>)
    requires view != []
    ensures AllocationOf(view, trades)[1..] == AllocationOf(view[1..], if trades == [] then [] else trades[1..])
  {
  }

  lemma {:induction false} NothingTaken(view: seq<Order>)
    ensures Taken(AllocationOf(view, [])) == 0.0 && Worth(view, AllocationOf(view, [])) == 0.0
  {
    if view != [] {
      AllocationTail(view, []);
      NothingTaken(view[1..]);
    }
  }

  lemma {:induction false} SweepAllocates(taker: Taker, view: seq<Order>, updated: seq<Order>, trades: seq<Trade>,
                                          pair: Pair)
    requires Live(view) && Sweeps(Fresh, taker, view, updated, trades, pair)
    ensures |trades| <= |view| && Allocation(view, AllocationOf(view, trades))
    decreases |trades|
  {
    assert forall i :: 0 <= i < |view| ==> LiveLevel(view[i]);
    if trades != [] {
      SweepAllocates(taker, view[1..], updated[2..], trades[1..], pair);
      var g, h := AllocationOf(view, trades), AllocationOf(view[1..], trades[1..]);
      forall i | 0 <= i < |g| ensures 0.0 <= g[i] <= view[i].Remaining() {
        if i > 0 { assert g[i] == h[i - 1] && view[i] == view[1..][i - 1]; }
      }
    }
  }

  lemma {:induction false} AllocationTotals(taker: Taker, view: seq<Order>, updated: seq<Order>, trades: seq<Trade>,
                                            pair: Pair)
    requires Sweeps(Fresh, taker, view, updated, trades, pair)
    ensures Taken(AllocationOf(view, trades)) == Volume(trades)
    ensures Worth(view, AllocationOf(view, trades)) == Cost(trades)
    decreases |trades|
  {
    if trades == [] {
      NothingTaken(view);
    } else {
      AllocationTotals(taker, view[1..], updated[2..], trades[1..], pair);
      AllocationTail(view, trades);
      TotalsThen(trades[0], trades[1..]);
      assert trades == [trades[0]] + trades[1..];
    }
  }

  // Where the first allocation takes more, the level is no cheaper than the price;
  // where it takes less, no dearer.
  ghost predicate LeansAbove(view: seq<Order>, x: seq<real>, g: seq<real>, price: real)
    requires |x| == |view| == |g|
  {
    forall i :: 0 <= i < |view| ==>
      || view[i].price == price
      || (x[i] >= g[i] && view[i].price >= price)
      || (x[i] <= g[i] && view[i].price <= price)
  }

  // The exchange argument: then the first costs at least that price for every unit
  // more that it takes.
  lemma {:induction false} ExchangeArgument(view: seq<Order>, x: seq<real>, g: seq<real>, price: real)
    returns (more: real, dearer: real)
    requires |x| == |view| == |g| && LeansAbove(view, x, g, price)
    ensures more == Taken(x) - Taken(g) && dearer == Worth(view, x) - Worth(view, g)
    ensures dearer >= price * more
  {
    if view == [] {
      more, dearer := 0.0, 0.0;
    } else {
      more, dearer := ExchangeArgument(view[1..], x[1..], g[1..], price);
      more, dearer := ExchangeFirst(view, x, g, price, more, dearer);
    }
  }

  lemma ExchangeFirst(view: seq<Order>, x: seq<real>, g: seq<real>, price: real, m: real, d: real)
    returns (more: real, dearer: real)
    requires |x| == |view| == |g| && view != [] && LeansAbove(view, x, g, price)
    requires m == Taken(x[1..]) - Taken(g[1..]) && d == Worth(view[1..], x[1..]) - Worth(view[1..], g[1..])
    requires d >= price * m
    ensures more == Taken(x) - Taken(g) && dearer == Worth(view, x) - Worth(view, g)
    ensures dearer >= price * more
  {
    more, dearer := ExchangeStep(view[0].price, x[0], g[0], price, m, d);
  }

  lemma ExchangeStep(level: real, x: real, g: real, price: real, m: real, d: real) returns (more: real, dearer: real)
    requires level == price || (x >= g && level >= price) || (x <= g && level <= price)
    requires d >= price * m
    ensures more == (x - g) + m && dearer == (level * x - level * g) + d
    ensures dearer >= price * more
  {
    more, dearer := (x - g) + m, (level * x - level * g) + d;
    SameSign(x - g, level - price);
    Expand(level, price, x, g, m);
  }

  lemma SameSign(a: real, b: real)
    requires (a >= 0.0 && b >= 0.0) || (a <= 0.0 && b <= 0.0)
    ensures a * b >= 0.0
  {
    assert (-a) * (-b) == a * b;
  }

  lemma Expand(level: real, price: real, x: real, g: real, more: real)
    ensures level * x - level * g == (x - g) * (level - price) + price * (x - g)
    ensures price * ((x - g) + more) == price * (x - g) + price * more
  {
  }

  // A market buy, too, takes a prefix of the view.
  lemma {:induction false} BudgetTakesPrefix(o: Order, view: seq<Order>, pair: Pair)
    requires Live(view) && o.price >= 0.0 && o.kind == Market && o.side == Buy
    ensures TakesPrefix(o, view, pair, MatchByBudget(Fresh, o, view, pair))
    decreases |view|
  {
    if o.price > 0.0 && view != [] {
      var incoming, hit, trade, next := BudgetRoundFacts(Fresh, o, view, pair);
      var r := MatchByBudget(Fresh, incoming, next, pair);
      if Done(hit) {
        BudgetTakesPrefix(incoming, view[1..], pair);
        PrefixThen(o, view, pair, incoming, hit, trade, r);
      }
    }
  }

  // If the view has been used up, the trades take all of every level.
  lemma UsedUp(o: Order, view: seq<Order>, pair: Pair, r: OrderResult, x: seq<real>)
    requires TakesPrefix(o, view, pair, r) && Live(view) && Allocation(view, x) && r.rest == []
    ensures forall i :: 0 <= i < |view| ==> x[i] <= AllocationOf(view, r.trades)[i]
  {
    var n := |r.trades|;
    if n > 0 {
      assert IsHit(TakerOf(o), view[n - 1], r.trades[n - 1], r.updated[2 * (n - 1) + 1], pair);
      assert LiveLevel(view[n - 1]);
      assert Done(r.updated[2 * n - 1]);
      assert r.trades[n - 1].quantity == view[n - 1].Remaining();
    }
  }

  lemma {:induction false} TakenMonotone(view: seq<Order>, x: seq<real>, g: seq<real>)
    requires |x| == |g| == |view| && Live(view)
    requires forall i :: 0 <= i < |x| ==> x[i] <= g[i]
    ensures Taken(x) <= Taken(g) && Worth(view, x) <= Worth(view, g)
  {
    if x != [] {
      assert LiveLevel(view[0]);
      assert view[0].price * (g[0] - x[0]) >= 0.0;
      TakenMonotone(view[1..], x[1..], g[1..]);
    }
  }

  // At a positive threshold price, spending no more takes no more, ...
  lemma ThresholdBuys(view: seq<Order>, x: seq<real>, g: seq<real>, price: real)
    requires |x| == |view| == |g| && LeansAbove(view, x, g, price) && price > 0.0
    requires Worth(view, x) <= Worth(view, g)
    ensures Taken(x) <= Taken(g)
  {
    var more, dearer := ExchangeArgument(view, x, g, price);
    BoundedBelow(price, more, dearer);
  }

  lemma BoundedBelow(price: real, more: real, dearer: real)
    requires price > 0.0 && dearer >= price * more
    ensures more > 0.0 ==> dearer > 0.0
    ensures more >= 0.0 ==> dearer >= 0.0
  {
    if more > 0.0 { assert price * more > 0.0; }
  }

  // ... and giving no more brings no more.
  lemma ThresholdSells(view: seq<Order>, x: seq<real>, g: seq<real>, price: real)
    requires |x| == |view| == |g| && LeansAbove(view, g, x, price) && price > 0.0
    requires Taken(x) <= Taken(g)
    ensures Worth(view, x) <= Worth(view, g)
  {
    var more, dearer := ExchangeArgument(view, g, x, price);
    BoundedBelow(price, more, dearer);
  }

  // --- When the trades are the best there are ------------------------------------------

  // For a taker on this side, the first price is no worse than the second.
  predicate NoWorse(side: Side, p: real, q: real) { if side == Buy then p <= q else p >= q }

  // No level that is taken from has a worse price than one with something left.
  ghost predicate WellPlaced(side: Side, view: seq<Order>, g: seq<real>)
    requires |g| == |view|
  {
    forall i, j :: 0 <= i < |view| && 0 <= j < |view| && g[i] > 0.0 && g[j] < view[j].Remaining() ==>
      NoWorse(side, view[i].price, view[j].price)
  }

  // An allocation takes something if and only if it is worth something.
  lemma {:induction false} AllocationSigns(view: seq<Order>, x: seq<real>)
    requires Live(view) && Allocation(view, x)
    ensures Taken(x) >= 0.0 && Worth(view, x) >= 0.0 && (Taken(x) == 0.0 <==> Worth(view, x) == 0.0)
    ensures Taken(x) > 0.0 ==> exists i :: 0 <= i < |x| && x[i] > 0.0
  {
    if x != [] {
      assert LiveLevel(view[0]);
      ProductSign(view[0].price, x[0]);
      var xs := x[1..];
      AllocationSigns(view[1..], xs);
      if Taken(xs) > 0.0 {
        var i :| 0 <= i < |xs| && xs[i] > 0.0;
        assert x[i + 1] > 0.0;
      }
    }
  }

  lemma ProductSign(price: real, x: real)
    requires price > 0.0 && x >= 0.0
    ensures price * x >= 0.0 && (price * x == 0.0 <==> x == 0.0)
  {
  }

  // The level with the worst price of those that are taken from.
  lemma WorstTaken(side: Side, view: seq<Order>, g: seq<real>, k: nat) returns (m: nat)
    requires |g| == |view| && k < |g| && g[k] > 0.0
    ensures m < |g| && g[m] > 0.0
    ensures forall i :: 0 <= i < |g| && g[i] > 0.0 ==> NoWorse(side, view[i].price, view[m].price)
  {
    m := k;
    for i := 0 to |g|
      invariant m < |g| && g[m] > 0.0
      invariant forall j :: 0 <= j < i && g[j] > 0.0 ==> NoWorse(side, view[j].price, view[m].price)
    {
      if g[i] > 0.0 && !NoWorse(side, view[i].price, view[m].price) { m := i; }
    }
  }

  // Its price is a threshold between what is taken and what is left.
  lemma PlacedLeans(side: Side, view: seq<Order>, g: seq<real>, x: seq<real>, m: nat)
    requires |g| == |view| && m < |g| && g[m] > 0.0 && WellPlaced(side, view, g)
    requires Allocation(view, g) && Allocation(view, x)
    requires forall i :: 0 <= i < |g| && g[i] > 0.0 ==> NoWorse(side, view[i].price, view[m].price)
    ensures if side == Buy then LeansAbove(view, x, g, view[m].price) else LeansAbove(view, g, x, view[m].price)
  {
    forall i | 0 <= i < |view|
      ensures x[i] < g[i] ==> NoWorse(side, view[i].price, view[m].price)
      ensures x[i] > g[i] ==> NoWorse(side, view[m].price, view[i].price)
    {
    }
  }

  // What is well placed and spends all the money, or sells all the quantity, is best.
  lemma PlacedIsBest(side: Side, view: seq<Order>, g: seq<real>, x: seq<real>)
    requires Live(view) && Allocation(view, g) && Allocation(view, x) && WellPlaced(side, view, g)
    ensures side == Buy && Worth(view, x) <= Worth(view, g) ==> Taken(x) <= Taken(g)
    ensures side == Sell && Taken(x) <= Taken(g) ==> Worth(view, x) <= Worth(view, g)
  {
    AllocationSigns(view, g);
    AllocationSigns(view, x);
    if Taken(g) > 0.0 {
      var k :| 0 <= k < |g| && g[k] > 0.0;
      var m := WorstTaken(side, view, g, k);
      assert LiveLevel(view[m]);
      PlacedLeans(side, view, g, x, m);
      if side == Buy && Worth(view, x) <= Worth(view, g) { ThresholdBuys(view, x, g, view[m].price); }
      if side == Sell && Taken(x) <= Taken(g) { ThresholdSells(view, x, g, view[m].price); }
    }
  }

  lemma {:induction false} SetTaken(x: seq<real>, i: nat, v: real)
    requires i < |x|
    ensures Taken(x[i := v]) == Taken(x) + v - x[i]
  {
    if i == 0 {
      assert x[0 := v][1..] == x[1..];
    } else {
      SetTaken(x[1..], i - 1, v);
      assert x[i := v][1..] == x[1..][i - 1 := v];
    }
  }

  lemma {:induction false} SetWorth(view: seq<Order>, x: seq<real>, i: nat, v: real, more: real)
    requires i < |x| == |view| && more == view[i].price * v - view[i].price * x[i]
    ensures Worth(view, x[i := v]) == Worth(view, x) + more
  {
    if i == 0 {
      assert x[0 := v][1..] == x[1..];
    } else {
      SetWorth(view[1..], x[1..], i - 1, v, more);
      assert x[i := v][1..] == x[1..][i - 1 := v];
    }
  }

  lemma Changed(view: seq<Order>, g: seq<real>, i: nat, d: real, cost: real) returns (x: seq<real>)
    requires Allocation(view, g) && i < |g| && 0.0 <= g[i] + d <= view[i].Remaining() && cost == view[i].price * d
    ensures x == g[i := g[i] + d] && Allocation(view, x)
    ensures Taken(x) == Taken(g) + d && Worth(view, x) == Worth(view, g) + cost
  {
    x := g[i := g[i] + d];
    SetTaken(g, i, g[i] + d);
    PriceOfChange(view[i].price, g[i], d, cost);
    SetWorth(view, g, i, g[i] + d, cost);
  }

  // Taking d less of one level and e more of another.
  lemma Shifted(view: seq<Order>, g: seq<real>, i: nat, j: nat, d: real, e: real, less: real, more: real)
    returns (x: seq<real>)
    requires Allocation(view, g) && i < |g| && j < |g| && i != j
    requires 0.0 <= d <= g[i] && 0.0 <= e <= view[j].Remaining() - g[j]
    requires less == view[i].price * d && more == view[j].price * e
    ensures Allocation(view, x) && Taken(x) == Taken(g) - d + e && Worth(view, x) == Worth(view, g) - less + more
  {
    Negated(view[i].price, d, less);
    var y := Changed(view, g, i, -d, -less);
    x := Changed(view, y, j, e, more);
  }

  lemma Negated(price: real, d: real, cost: real)
    requires cost == price * d
    ensures -cost == price * -d
  {
  }

  lemma PriceOfChange(price: real, x: real, d: real, cost: real)
    requires cost == price * d
    ensures cost == price * (x + d) - price * x
  {
  }

  // What a sum of money buys at a price.
  lemma BoughtFor(price: real, money: real, room: real) returns (x: real)
    requires price > 0.0 && 0.0 < money <= price * room
    ensures price * x == money && 0.0 < x <= room
  {
    x := money / price;
    assert price * x == money;
    assert x <= 0.0 ==> price * x <= 0.0;
    assert x > room ==> price * (x - room) > 0.0;
  }

  lemma MoreForLess(p: real, q: real, d: real, e: real)
    requires p > q > 0.0 && p * d == q * e && d > 0.0
    ensures d < e
  {
    assert (p - q) * d > 0.0;
    assert e <= d ==> q * (d - e) >= 0.0;
  }

  lemma Positive(x: real, y: real)
    requires x > 0.0 && y > 0.0
    ensures x * y > 0.0
  {
  }

  // The amounts that a buy shifts: the same money, and more for it at the lower price.
  lemma SameMoney(p: real, q: real, have: real, room: real) returns (d: real, e: real)
    requires p > q > 0.0 && have > 0.0 && room > 0.0
    ensures 0.0 <= d <= have && 0.0 <= e <= room && d < e && p * d == q * e
  {
    Positive(p, have);
    Positive(q, room);
    var money := Min(p * have, q * room);
    d := BoughtFor(p, money, have);
    e := BoughtFor(q, money, room);
    MoreForLess(p, q, d, e);
  }

  // What is badly placed can be bettered by shifting from the worse level to the better.
  lemma MisplacedBuy(view: seq<Order>, g: seq<real>, i: nat, j: nat) returns (x: seq<real>)
    requires Live(view) && Allocation(view, g) && i < |g| && j < |g|
    requires g[i] > 0.0 && g[j] < view[j].Remaining() && view[i].price > view[j].price
    ensures Allocation(view, x) && Worth(view, x) == Worth(view, g) && Taken(x) > Taken(g)
  {
    assert LiveLevel(view[i]) && LiveLevel(view[j]);
    var d, e := SameMoney(view[i].price, view[j].price, g[i], view[j].Remaining() - g[j]);
    x := Shifted(view, g, i, j, d, e, view[i].price * d, view[j].price * e);
  }

  lemma MisplacedSell(view: seq<Order>, g: seq<real>, i: nat, j: nat) returns (x: seq<real>)
    requires Live(view) && Allocation(view, g) && i < |g| && j < |g|
    requires g[i] > 0.0 && g[j] < view[j].Remaining() && view[i].price < view[j].price
    ensures Allocation(view, x) && Taken(x) == Taken(g) && Worth(view, x) > Worth(view, g)
  {
    var d := Min(g[i], view[j].Remaining() - g[j]);
    x := Shifted(view, g, i, j, d, d, view[i].price * d, view[j].price * d);
    DearerIsMore(view[i].price, view[j].price, d);
  }

  lemma DearerIsMore(p: real, q: real, d: real)
    requires p < q && d > 0.0
    ensures p * d < q * d
  {
    assert (q - p) * d > 0.0;
  }

  // On a price-ordered side a prefix is well placed.
  lemma PrefixPlaced(side: Side, o: Order, view: seq<Order>, pair: Pair, r: OrderResult)
    requires TakesPrefix(o, view, pair, r) && PriceOrdered(Opposite(side), view)
    ensures WellPlaced(side, view, AllocationOf(view, r.trades))
  {
  }

  // No allocation that the amount can pay for takes more than the trades do.
  ghost predicate BuysMost(view: seq<Order>, amount: real, trades: seq<Trade>) {
    forall x :: Allocation(view, x) && Worth(view, x) <= amount ==> Taken(x) <= Volume(trades)
  }

  // No allocation of up to the quantity brings more than the trades do.
  ghost predicate SellsBest(view: seq<Order>, quantity: real, trades: seq<Trade>) {
    forall x :: Allocation(view, x) && Taken(x) <= quantity ==> Worth(view, x) <= Cost(trades)
  }

  // What the trades of a match take of the levels.
  ghost predicate TakesOf(o: Order, view: seq<Order>, pair: Pair, r: OrderResult, g: seq<real>) {
    && Live(view) && TakesPrefix(o, view, pair, r) && g == AllocationOf(view, r.trades)
    && Allocation(view, g) && Taken(g) == Volume(r.trades) && Worth(view, g) == Cost(r.trades)
  }

  lemma Misplacement(side: Side, view: seq<Order>, g: seq<real>) returns (i: nat, j: nat)
    requires |g| == |view| && !WellPlaced(side, view, g)
    ensures i < |g| && j < |g| && g[i] > 0.0 && g[j] < view[j].Remaining()
    ensures !NoWorse(side, view[i].price, view[j].price)
  {
    var a, b :| 0 <= a < |view| && 0 <= b < |view| && g[a] > 0.0 && g[b] < view[b].Remaining()
      && !NoWorse(side, view[a].price, view[b].price);
    i, j := a, b;
  }

  lemma PlacedBeats(side: Side, o: Order, view: seq<Order>, pair: Pair, r: OrderResult, g: seq<real>, x: seq<real>)
    requires TakesOf(o, view, pair, r, g) && WellPlaced(side, view, g) && Allocation(view, x)
    ensures side == Buy && (r.rest == [] || Worth(view, x) <= Worth(view, g)) ==> Taken(x) <= Taken(g)
    ensures side == Sell && (r.rest == [] || Taken(x) <= Taken(g)) ==> Worth(view, x) <= Worth(view, g)
  {
    if r.rest == [] {
      UsedUp(o, view, pair, r, x);
      TakenMonotone(view, x, g);
    } else {
      PlacedIsBest(side, view, g, x);
    }
  }

  lemma BuysMostIff(o: Order, view: seq<Order>, pair: Pair, r: OrderResult, g: seq<real>, amount: real)
    requires TakesOf(o, view, pair, r, g) && Cost(r.trades) <= amount && (r.rest != [] ==> Cost(r.trades) == amount)
    ensures BuysMost(view, amount, r.trades) <==> WellPlaced(Buy, view, g)
  {
    if WellPlaced(Buy, view, g) {
      forall x | Allocation(view, x) && Worth(view, x) <= amount ensures Taken(x) <= Volume(r.trades) {
        PlacedBeats(Buy, o, view, pair, r, g, x);
      }
    } else {
      var i, j := Misplacement(Buy, view, g);
      var x := MisplacedBuy(view, g, i, j);
    }
  }

  lemma SellsBestIff(o: Order, view: seq<Order>, pair: Pair, r: OrderResult, g: seq<real>, quantity: real)
    requires TakesOf(o, view, pair, r, g)
    requires Volume(r.trades) <= quantity && (r.rest != [] ==> Volume(r.trades) == quantity)
    ensures SellsBest(view, quantity, r.trades) <==> WellPlaced(Sell, view, g)
  {
    if WellPlaced(Sell, view, g) {
      forall x | Allocation(view, x) && Taken(x) <= quantity ensures Worth(view, x) <= Cost(r.trades) {
        PlacedBeats(Sell, o, view, pair, r, g, x);
      }
    } else {
      var i, j := Misplacement(Sell, view, g);
      var x := MisplacedSell(view, g, i, j);
    }
  }

  // A market buy over any asks, in whatever order they are served: its trades are an
  // allocation that the amount can pay for, and the best one if and only if they take from
  // no level that is dearer than one with something left.
  lemma MarketBuyBestIff(o: Order, view: seq<Order>, pair: Pair)
    requires Live(view) && o.kind == Market && o.side == Buy && o.price >= 0.0
    ensures var trades := MatchByBudget(Fresh, o, view, pair).trades;
      var g := AllocationOf(view, trades);
      && Allocation(view, g) && Worth(view, g) == Cost(trades) <= o.price && Taken(g) == Volume(trades)
      && (BuysMost(view, o.price, trades) <==> WellPlaced(Buy, view, g))
  {
    var r := MatchByBudget(Fresh, o, view, pair);
    BudgetFacts(Fresh, o, view, pair);
    SweepAllocates(TakerOf(o), view, r.updated, r.trades, pair);
    AllocationTotals(TakerOf(o), view, r.updated, r.trades, pair);
    BudgetTakesPrefix(o, view, pair);
    BuysMostIff(o, view, pair, r, AllocationOf(view, r.trades), o.price);
  }

  // A market sell over any bids likewise: no level taken from is lower than one with
  // something left.
  lemma MarketSellBestIff(o: Order, view: seq<Order>, pair: Pair)
    requires Live(view) && o.kind == Market && o.side == Sell && o.filled <= o.quantity
    ensures var trades := MatchByQuantity(Fresh, o, view, pair).trades;
      var g := AllocationOf(view, trades);
      && Allocation(view, g) && Taken(g) == Volume(trades) <= o.Remaining() && Worth(view, g) == Cost(trades)
      && (SellsBest(view, o.Remaining(), trades) <==> WellPlaced(Sell, view, g))
  {
    var r := MatchByQuantity(Fresh, o, view, pair);
    QuantityFacts(Fresh, o, view, pair);
    SweepAllocates(TakerOf(o), view, r.updated, r.trades, pair);
    AllocationTotals(TakerOf(o), view, r.updated, r.trades, pair);
    FreshTakesPrefix(o, view, pair);
    SellsBestIff(o, view, pair, r, AllocationOf(view, r.trades), o.Remaining());
  }

  // So on a price-ordered side they are the best there are.
  lemma MarketBuyIsBest(o: Order, view: seq<Order>, pair: Pair)
    requires Live(view) && PriceOrdered(Sell, view)
    requires o.kind == Market && o.side == Buy && o.price >= 0.0
    ensures BuysMost(view, o.price, MatchByBudget(Fresh, o, view, pair).trades)
  {
    BudgetTakesPrefix(o, view, pair);
    PrefixPlaced(Buy, o, view, pair, MatchByBudget(Fresh, o, view, pair));
    MarketBuyBestIff(o, view, pair);
  }

  lemma MarketSellIsBest(o: Order, view: seq<Order>, pair: Pair)
    requires Live(view) && PriceOrdered(Buy, view)
    requires o.kind == Market && o.side == Sell && o.filled <= o.quantity
    ensures SellsBest(view, o.Remaining(), MatchByQuantity(Fresh, o, view, pair).trades)
  {
    FreshTakesPrefix(o, view, pair);
    PrefixPlaced(Sell, o, view, pair, MatchByQuantity(Fresh, o, view, pair));
    MarketSellBestIff(o, view, pair);
  }

  // --- Levels that a limit order overlooks ------------------------------------------------

  // On a price-ordered side the crossing run is every level that crosses, so the
  // volume of a limit order is all it wants or all there is within its limit.
  lemma {:induction false} RunIsAllThatCrosses(o: Order, view: seq<Order>)
    requires PriceOrdered(Opposite(o.side), view)
    ensures forall i :: 0 <= i < |view| ==> (Crosses(o, view[i]) <==> i < CrossingRun(o, view))
  {
    if view != [] && Crosses(o, view[0]) {
      RunIsAllThatCrosses(o, view[1..]);
      forall i | 0 <= i < |view| ensures Crosses(o, view[i]) <==> i < CrossingRun(o, view) {
        if i > 0 { assert view[i] == view[1..][i - 1]; }
      }
    }
  }

  // All that the levels within the order's limit have left, wherever they stand.
  function Available(o: Order, view: seq<Order>): real {
    if view == [] then 0.0
    else (if Crosses(o, view[0]) then view[0].Remaining() else 0.0) + Available(o, view[1..])
  }

  ghost predicate AnyCrosses(o: Order, view: seq<Order>) { exists i :: 0 <= i < |view| && Crosses(o, view[i]) }

  lemma {:induction false} AvailableSigns(o: Order, view: seq<Order>)
    requires Live(view)
    ensures Available(o, view) >= 0.0
    ensures Available(o, view) > 0.0 <==> AnyCrosses(o, view)
  {
    if view != [] {
      assert LiveLevel(view[0]);
      AvailableSigns(o, view[1..]);
      if Available(o, view[1..]) > 0.0 {
        var i :| 0 <= i < |view| - 1 && Crosses(o, view[1..][i]);
        assert Crosses(o, view[i + 1]);
      }
      if i :| 0 <= i < |view| && Crosses(o, view[i]) {
        assert i > 0 ==> Crosses(o, view[1..][i - 1]);
      }
    }
  }

  lemma {:induction false} RunIsAvailable(o: Order, view: seq<Order>)
    ensures var n := CrossingRun(o, view);
      Available(o, view) == Depth(view[..n]) + Available(o, view[n..])
  {
    if view != [] && Crosses(o, view[0]) {
      var n := CrossingRun(o, view);
      RunIsAvailable(o, view[1..]);
      assert view[..n][1..] == view[1..][..n - 1] && view[1..][n - 1..] == view[n..];
    } else {
      assert view[0..] == view;
    }
  }

  // Behind the run at which the loop breaks, levels that cross.
  ghost predicate CrossesBeyond(o: Order, view: seq<Order>) {
    exists i :: CrossingRun(o, view) <= i < |view| && Crosses(o, view[i])
  }

  // A limit order is left resting by its match.
  predicate StaysUnfilled(mode: ReadMode, o: Order, view: seq<Order>) {
    var n := CrossingRun(o, view);
    if mode == Stale then n == 0 else Depth(view[..n]) < o.quantity
  }

  // A limit order that is left resting although there are levels that cross it.
  ghost predicate Overlooks(mode: ReadMode, o: Order, view: seq<Order>) {
    o.kind == Limit && StaysUnfilled(mode, o, view) && CrossesBeyond(o, view)
  }

  lemma OrderedOverlooksNone(mode: ReadMode, o: Order, view: seq<Order>)
    requires PriceOrdered(Opposite(o.side), view)
    ensures !Overlooks(mode, o, view)
  {
    RunIsAllThatCrosses(o, view);
  }

  lemma {:induction false} FreshRest(o: Order, view: seq<Order>, pair: Pair)
    requires Live(view) && o.filled <= o.quantity
    ensures var r := MatchByQuantity(Fresh, o, view, pair);
      r.incoming.filled < o.quantity ==> r.rest == view[CrossingRun(o, view)..]
    decreases |view|
  {
    if o.filled < o.quantity && view != [] && Crosses(o, view[0]) {
      var incoming, hit, trade, next := FreshRound(o, view, pair);
      if Done(hit) {
        FreshRest(incoming, view[1..], pair);
        SameRun(o, incoming, view[1..]);
        assert view[1..][CrossingRun(o, view[1..])..] == view[CrossingRun(o, view)..];
      }
    }
  }

  // What becomes of a limit order, and what is left for it if it is not filled.
  lemma LimitRest(mode: ReadMode, o: Order, view: seq<Order>, pair: Pair)
    requires Live(view) && o.kind == Limit && o.filled == 0.0 && o.quantity > 0.0
    ensures var r := Match(mode, o, view, pair);
      && (r.incoming.status != Filled <==> StaysUnfilled(mode, o, view))
      && (r.incoming.status != Filled ==> r.rest == view[CrossingRun(o, view)..])
  {
    QuantityFacts(mode, o, view, pair);
    if mode == Fresh {
      FreshTakesPrefix(o, view, pair);
      FreshRest(o, view, pair);
    } else if view != [] && Crosses(o, view[0]) {
      assert LiveLevel(view[0]);
      StaleRepeats(o, view, pair);
    }
  }

  lemma BeyondIsRest(o: Order, view: seq<Order>)
    ensures CrossesBeyond(o, view) <==> AnyCrosses(o, view[CrossingRun(o, view)..])
  {
    var n := CrossingRun(o, view);
    var rest := view[n..];
    if CrossesBeyond(o, view) {
      var i :| n <= i < |view| && Crosses(o, view[i]);
      assert Crosses(o, rest[i - n]);
    }
    if AnyCrosses(o, rest) {
      var i :| 0 <= i < |rest| && Crosses(o, rest[i]);
      assert Crosses(o, view[n + i]);
    }
  }

  lemma LimitTakes(o: Order, view: seq<Order>, pair: Pair)
    requires Live(view) && o.kind == Limit && o.filled == 0.0 && o.quantity > 0.0
    ensures var r := Match(Fresh, o, view, pair);
      && r.incoming.filled == Volume(r.trades) == Min(o.quantity, Depth(view[..CrossingRun(o, view)]))
      && TakesPrefix(o, view, pair, r)
  {
    FreshTakesPrefix(o, view, pair);
    QuantityFacts(Fresh, o, view, pair);
    PrefixOfResult(o, view, pair, MatchByQuantity(Fresh, o, view, pair), Match(Fresh, o, view, pair));
  }

  // Reading fresh, a limit order is filled with all that rests within its limit, or
  // completely, if and only if it overlooks nothing.
  lemma LimitFillsIff(o: Order, view: seq<Order>, pair: Pair)
    requires Live(view) && o.kind == Limit && o.filled == 0.0 && o.quantity > 0.0
    ensures var r := Match(Fresh, o, view, pair);
      && r.incoming.filled == Volume(r.trades) && TakesPrefix(o, view, pair, r)
      && (Volume(r.trades) == Min(o.quantity, Available(o, view)) <==> !Overlooks(Fresh, o, view))
  {
    var n := CrossingRun(o, view);
    LimitTakes(o, view, pair);
    RunIsAvailable(o, view);
    AvailableSigns(o, view[n..]);
    BeyondIsRest(o, view);
    MinGrows(o.quantity, Depth(view[..n]), Available(o, view[n..]));
  }

  lemma MinGrows(wanted: real, depth: real, more: real)
    requires more >= 0.0
    ensures Min(wanted, depth) == Min(wanted, depth + more) <==> !(depth < wanted && more > 0.0)
  {
  }

  lemma PrefixOfResult(o: Order, view: seq<Order>, pair: Pair, q: OrderResult, r: OrderResult)
    requires TakesPrefix(o, view, pair, q)
    requires r.trades == q.trades && r.updated == q.updated && r.rest == q.rest
    ensures TakesPrefix(o, view, pair, r)
  {
  }

  // On a price-ordered side it never does.
  lemma LimitFillsWhatCrosses(o: Order, view: seq<Order>, pair: Pair)
    requires Live(view) && o.kind == Limit && o.filled == 0.0 && o.quantity > 0.0
    requires PriceOrdered(Opposite(o.side), view)
    ensures var r := Match(Fresh, o, view, pair);
      && r.incoming.filled == Volume(r.trades) == Min(o.quantity, Available(o, view))
      && TakesPrefix(o, view, pair, r)
  {
    LimitFillsIff(o, view, pair);
    OrderedOverlooksNone(Fresh, o, view);
  }
}
