// Runs: any number of creations, cancellations and deposits in any order, from any
// consistent state, whichever way the matching loop reads the book and its times.

module Runs {
  import opened Models
  import opened Ledger
  import opened Score
  import opened OrderBook
  import opened Matching
  import opened Exchange
  import opened Steps
  import opened ReadTimes

  function Run(mode: ReadMode, times: TimeRead, s: State, ops: seq<Op>): State
    requires Consistent(s)
    decreases |ops|
  {
    if ops == [] then s
    else
      StepConsistent(mode, times, s, ops[0]);
      Run(mode, times, Step(mode, times, s, ops[0]), ops[1..])
  }

  lemma {:induction false} RunKeepsConsistent(mode: ReadMode, times: TimeRead, s: State, ops: seq<Op>)
    requires Consistent(s)
    ensures Consistent(Run(mode, times, s, ops))
    decreases |ops|
  {
    if ops != [] {
      StepConsistent(mode, times, s, ops[0]);
      RunKeepsConsistent(mode, times, Step(mode, times, s, ops[0]), ops[1..]);
    }
  }

  // --- Agreement of the book, over runs -----------------------------------------------

  // After any run the book holds exactly the limit orders that are open or partially
  // filled, each on its own side and market, with the row's quantity and fill, at the score
  // of the row's price and the time it holds.
  lemma RunAgrees(mode: ReadMode, times: TimeRead, s: State, ops: seq<Op>)
    requires Consistent(s)
    ensures var t := Run(mode, times, s, ops);
      forall id :: id in t.book.details <==>
        && id in t.orders && t.orders[id].kind == Limit
        && (t.orders[id].status == Open || t.orders[id].status == PartiallyFilled)
    ensures var t := Run(mode, times, s, ops);
      forall id :: id in t.book.details ==>
        t.book.details[id] == t.orders[id].(createdAt := t.book.details[id].createdAt)
    ensures var t := Run(mode, times, s, ops);
      forall key, e :: e in Index(t.book, key) <==>
        e.member in t.book.details && KeyOf(t.orders[e.member]) == key
        && e.score == BuildScore(t.orders[e.member].price, t.book.details[e.member].createdAt)
  {
    RunKeepsConsistent(mode, times, s, ops);
    BookListsResting(Run(mode, times, s, ops));
  }

  lemma BookListsResting(t: State)
    requires Valid(Stored(t))
    ensures forall id :: id in t.book.details <==>
      && id in t.orders && t.orders[id].kind == Limit
      && (t.orders[id].status == Open || t.orders[id].status == PartiallyFilled)
    ensures forall id :: id in t.book.details ==>
      t.book.details[id] == t.orders[id].(createdAt := t.book.details[id].createdAt)
    ensures forall key, e :: e in Index(t.book, key) <==>
      e.member in t.book.details && KeyOf(t.orders[e.member]) == key
      && e.score == BuildScore(t.orders[e.member].price, t.book.details[e.member].createdAt)
  {
    var stored := Stored(t).orders;
    forall id | id in t.orders
      ensures stored[id].Resting() ==> stored[id].kind == Limit
      ensures stored[id].status == t.orders[id].status && stored[id].kind == t.orders[id].kind
    {
      assert RowOk(t.markets, id, stored[id]);
    }
    assert forall id :: id in t.book.details ==> t.book.details[id] == stored[id];
    forall key, e
      ensures e in Index(t.book, key) <==>
        e.member in t.book.details && KeyOf(t.orders[e.member]) == key
        && e.score == BuildScore(t.orders[e.member].price, t.book.details[e.member].createdAt)
    {
      assert e in Index(t.book, key) <==> Listed(stored, key, e);
    }
  }

  // --- The times that the book holds, over runs ------------------------------------------

  // The orders that a step hit as levels: old orders that a new trade names.
  ghost function HitBy(s: State, t: State): set<OrderId> { set k | k in s.orders && NamedSince(s, t, k) }

  ghost function Hits(mode: ReadMode, times: TimeRead, s: State, ops: seq<Op>): set<OrderId>
    requires Consistent(s)
    decreases |ops|
  {
    if ops == [] then {}
    else
      StepConsistent(mode, times, s, ops[0]);
      var t := Step(mode, times, s, ops[0]);
      HitBy(s, t) + Hits(mode, times, t, ops[1..])
  }

  // The book holds the rows, but those of the given orders with the zero time.
  ghost predicate HoldsRows(s: State, lost: set<OrderId>) {
    && lost <= s.orders.Keys
    && forall id :: id in s.book.details ==>
         && id in s.orders
         && s.book.details[id] == if id in lost then s.orders[id].(createdAt := ZERO_TIME_MILLIS) else s.orders[id]
  }

  lemma StepHoldsRows(times: TimeRead, s: State, t: State, lost: set<OrderId>)
    requires HoldsRows(s, lost) && TimesStep(times, s, t)
    ensures HoldsRows(t, if times == Undecoded then lost + HitBy(s, t) else lost)
  {
  }

  lemma HitsThen(lost: set<OrderId>, first: set<OrderId>, more: set<OrderId>)
    ensures lost + first + more == lost + (first + more)
  {
  }

  lemma {:induction false} RunHoldsRows(mode: ReadMode, times: TimeRead, s: State, ops: seq<Op>, lost: set<OrderId>)
    requires Consistent(s) && HoldsRows(s, lost)
    ensures HoldsRows(Run(mode, times, s, ops), if times == Undecoded then lost + Hits(mode, times, s, ops) else lost)
    decreases |ops|
  {
    if ops == [] {
      assert lost + {} == lost;
    } else {
      StepConsistent(mode, times, s, ops[0]);
      var t := Step(mode, times, s, ops[0]);
      StepAlike(mode, times, s, ops[0]);
      StepHoldsRows(times, s, t, lost);
      var more := if times == Undecoded then lost + HitBy(s, t) else lost;
      RunHoldsRows(mode, times, t, ops[1..], more);
      HitsThen(lost, HitBy(s, t), Hits(mode, times, t, ops[1..]));
    }
  }

  // From a book that agrees with the table, any run leaves one whose entries are the rows,
  // to the millisecond where the times are decoded. As written, an order has the zero time
  // there if and only if it has been hit as a level, and its own time otherwise.
  lemma RunTimes(mode: ReadMode, times: TimeRead, s: State, ops: seq<Op>)
    requires Valid(s)
    ensures Consistent(s)
    ensures var t := Run(mode, times, s, ops);
      forall id :: id in t.book.details ==>
        id in t.orders && t.book.details[id] ==
          if times == Undecoded && id in Hits(mode, times, s, ops)
          then t.orders[id].(createdAt := ZERO_TIME_MILLIS) else t.orders[id]
  {
    ValidIsConsistent(s);
    assert forall id :: id in s.book.details ==> s.book.details[id] == s.orders[id];
    RunHoldsRows(mode, times, s, ops, {});
    assert {} + Hits(mode, times, s, ops) == Hits(mode, times, s, ops);
  }

  // --- Conservation, over runs ----------------------------------------------------------

  lemma AnyStepConserves(mode: ReadMode, times: TimeRead, s: State, op: Op, c: Column)
    requires Consistent(s) && LiveBook(s.book)
    ensures Held(Step(mode, times, s, op).funds, c) == Held(s.funds, c) + Inflow(s, op, c)
  {
    StepAlike(mode, times, s, op);
    StepConserves(mode, Stored(s), op, c);
    assert Inflow(Stored(s), op, c) == Inflow(s, op, c);
  }

  function Inflows(mode: ReadMode, times: TimeRead, s: State, ops: seq<Op>, c: Column): real
    requires Consistent(s)
    decreases |ops|
  {
    if ops == [] then 0.0
    else
      StepConsistent(mode, times, s, ops[0]);
      Inflow(s, ops[0], c) + Inflows(mode, times, Step(mode, times, s, ops[0]), ops[1..], c)
  }

  // Over any run each column holds what it held plus what was deposited into it:
  // trading and cancelling create and destroy nothing, in either way of reading.
  lemma {:induction false} RunConserves(mode: ReadMode, times: TimeRead, s: State, ops: seq<Op>, c: Column)
    requires Consistent(s)
    ensures Held(Run(mode, times, s, ops).funds, c) == Held(s.funds, c) + Inflows(mode, times, s, ops, c)
    decreases |ops|
  {
    if ops != [] {
      StepConsistent(mode, times, s, ops[0]);
      AnyStepConserves(mode, times, s, ops[0], c);
      RunConserves(mode, times, Step(mode, times, s, ops[0]), ops[1..], c);
    }
  }

  // --- The life of an order, over runs ------------------------------------------------------

  lemma EvolvesBlind(s: State, k: State, t: State, times: TimeRead)
    requires Evolves(Stored(s), k) && Alike(k, t) && TimesStep(times, s, t)
    ensures Evolves(s, t)
  {
    forall id | id in s.orders
      ensures SameCore(s.orders[id], t.orders[id]) && s.orders[id].filled <= t.orders[id].filled
      ensures !s.orders[id].Resting() ==> !t.orders[id].Resting() && t.orders[id].filled == s.orders[id].filled
    {
      assert SameCore(Stored(s).orders[id], k.orders[id]) && Blind(k.orders[id], t.orders[id]);
    }
    forall id, i | id in s.orders && !s.orders[id].Resting() && |s.trades| <= i < |t.trades|
      ensures !Names(t.trades[i], id)
    {
      assert !Stored(s).orders[id].Resting();
      assert t.trades[i] == k.trades[i];
    }
  }

  lemma {:induction false} RunEvolves(mode: ReadMode, times: TimeRead, s: State, ops: seq<Op>)
    requires Consistent(s)
    ensures Evolves(s, Run(mode, times, s, ops))
    decreases |ops|
  {
    if ops != [] {
      StepConsistent(mode, times, s, ops[0]);
      var t := Step(mode, times, s, ops[0]);
      StepEvolves(mode, Stored(s), ops[0]);
      StepAlike(mode, times, s, ops[0]);
      EvolvesBlind(s, Step(mode, Decoded, Stored(s), ops[0]), t, times);
      RunEvolves(mode, times, t, ops[1..]);
      EvolvesTransitive(s, t, Run(mode, times, t, ops[1..]));
    }
  }
}
