// The sorted set of Redis, and the score that orders a book side
// (internal/db/redis.go, buildScore).

module Score {
  import opened Models

  const BASE_TIME := 1700000000000
  const TIME_UNIT: real := 10000000000000.0

  function BuildScore(price: real, createdAt: int): real {
    price + (createdAt - BASE_TIME) as real / TIME_UNIT
  }

  function ScoreOf(o: Order): real { BuildScore(o.price, o.createdAt) }

  // --- What the score promises about priority -------------------------------

  function Ticks(n: int, tick: real): real { n as real * tick }

  ghost predicate OnTick(price: real, tick: real) {
    exists n :: price == Ticks(n, tick)
  }

  // All prices are multiples of the tick, and all times fall in a window too
  // short to make up for one tick.
  ghost predicate Aligned(price: real, createdAt: int, tick: real, start: int, span: int) {
    && OnTick(price, tick)
    && start <= createdAt <= start + span
  }

  predicate ShortSpan(tick: real, span: int) {
    tick > 0.0 && span >= 0 && span as real < tick * TIME_UNIT
  }

  // Two different prices on the grid are at least one tick apart.
  lemma TickGap(p: real, q: real, tick: real)
    requires tick > 0.0 && OnTick(p, tick) && OnTick(q, tick) && p < q
    ensures q - p >= tick
  {
    var m :| p == Ticks(m, tick);
    var n :| q == Ticks(n, tick);
    var d := (n - m) as real;
    assert d * tick == q - p;
    assert d <= 0.0 ==> d * tick <= 0.0;
    assert n - m >= 1;
    assert (d - 1.0) * tick >= 0.0;
  }

  // Within the window the score order is exactly (price, time) in lexicographic
  // order. Asks are served from the low end: cheapest first, oldest first at one
  // price. Bids are served from the high end of the same order: dearest first,
  // and the newest first at one price.
  lemma ScoreIsLexicographic(p: real, t: int, q: real, u: int, tick: real, start: int, span: int)
    requires ShortSpan(tick, span)
    requires Aligned(p, t, tick, start, span) && Aligned(q, u, tick, start, span)
    ensures BuildScore(p, t) < BuildScore(q, u) <==> p < q || (p == q && t < u)
    ensures BuildScore(p, t) == BuildScore(q, u) <==> p == q && t == u
  {
    ScoreGap(p, t, q, u);
    if p < q {
      TickGap(p, q, tick);
    } else if q < p {
      TickGap(q, p, tick);
    }
  }

  // The difference of two scores, with the time part cleared of its unit.
  lemma ScoreGap(p: real, t: int, q: real, u: int)
    ensures (BuildScore(q, u) - BuildScore(p, t)) * TIME_UNIT == (q - p) * TIME_UNIT + (u - t) as real
  {
    assert ((u - BASE_TIME) as real / TIME_UNIT) * TIME_UNIT == (u - BASE_TIME) as real;
    assert ((t - BASE_TIME) as real / TIME_UNIT) * TIME_UNIT == (t - BASE_TIME) as real;
  }

  // The window is tight: on any grid and with any longer span there are two
  // orders, one tick apart, that the score ranks against their prices.
  lemma SpanIsTight(tick: real, start: int, span: int)
    requires tick > 0.0 && span as real > tick * TIME_UNIT
    ensures exists p, t, q, u ::
      Aligned(p, t, tick, start, span) && Aligned(q, u, tick, start, span)
      && p < q && BuildScore(p, t) > BuildScore(q, u)
  {
    var p, q := 1.0 * tick, 2.0 * tick;
    assert Ticks(1, tick) == p && Ticks(2, tick) == q;
    assert span > 0 by { assert tick * TIME_UNIT > 0.0; }
    assert Aligned(p, start + span, tick, start, span) && Aligned(q, start, tick, start, span);
    ScoreGap(p, start + span, q, start);
  }

  // On a boundary span the two are indistinguishable, so the order id decides.
  lemma SpanBoundaryTies(tick: real, start: int, span: int)
    requires tick > 0.0 && span as real == tick * TIME_UNIT
    ensures BuildScore(tick, start + span) == BuildScore(2.0 * tick, start)
  {
    ScoreGap(tick, start + span, 2.0 * tick, start);
  }

  // The creation time is written with %d from milliseconds but read back into a
  // structured time, which fails and leaves the zero time, the year 1. A level
  // rewritten with that time would drop by a constant 6.38 whatever its price.
  const ZERO_TIME_MILLIS := -62135596800000

  lemma UndecodedTimeShiftsScore(price: real, createdAt: int)
    requires createdAt >= BASE_TIME
    ensures BuildScore(price, ZERO_TIME_MILLIS) <= BuildScore(price, createdAt) - 6.38355968
    ensures BuildScore(price, ZERO_TIME_MILLIS) == price - 6.38355968
  {
    ScoreGap(price, ZERO_TIME_MILLIS, price, createdAt);
  }

  // --- The sorted set --------------------------------------------------------

  datatype Entry = Entry(score: real, member: OrderId)

  // Redis orders entries by score, and by member where scores are equal.
  predicate Before(a: Entry, b: Entry) {
    a.score < b.score || (a.score == b.score && a.member < b.member)
  }

  ghost predicate Sorted(z: seq<Entry>) {
    forall i, j :: 0 <= i < j < |z| ==> Before(z[i], z[j])
  }

  function ZRem(z: seq<Entry>, id: OrderId): seq<Entry> {
    if z == [] then []
    else if z[0].member == id then ZRem(z[1..], id)
    else [z[0]] + ZRem(z[1..], id)
  }

  function ZInsert(z: seq<Entry>, e: Entry): seq<Entry> {
    if z == [] || Before(e, z[0]) then [e] + z
    else [z[0]] + ZInsert(z[1..], e)
  }

  // ZADD moves an existing member to its new score.
  function ZAdd(z: seq<Entry>, score: real, id: OrderId): seq<Entry> {
    ZInsert(ZRem(z, id), Entry(score, id))
  }

  lemma {:induction false} ZRemEntries(z: seq<Entry>, id: OrderId)
    requires Sorted(z)
    ensures Sorted(ZRem(z, id))
    ensures forall e :: e in ZRem(z, id) <==> e in z && e.member != id
  {
    if z != [] {
      ZRemEntries(z[1..], id);
      var r := ZRem(z[1..], id);
      forall e ensures e in ZRem(z, id) <==> e in z && e.member != id {
        assert e in z <==> e == z[0] || e in z[1..];
        if z[0].member != id {
          assert e in [z[0]] + r <==> e == z[0] || e in r;
        }
      }
      if z[0].member != id {
        forall i | 0 <= i < |r| ensures Before(z[0], r[i]) {
          assert r[i] in z[1..];
        }
      }
    }
  }

  lemma {:induction false} ZInsertEntries(z: seq<Entry>, e: Entry)
    requires Sorted(z)
    requires forall x :: x in z ==> x.member != e.member
    ensures Sorted(ZInsert(z, e))
    ensures forall x :: x in ZInsert(z, e) <==> x in z || x == e
  {
    if z == [] || Before(e, z[0]) {
      assert forall x :: x in [e] + z <==> x == e || x in z;
    } else {
      assert z[0] in z;
      assert forall x :: x in z[1..] ==> x in z;
      ZInsertEntries(z[1..], e);
      var r := ZInsert(z[1..], e);
      forall i | 0 <= i < |r| ensures Before(z[0], r[i]) {
        assert r[i] in r;
      }
      forall x ensures x in ZInsert(z, e) <==> x in z || x == e {
        assert x in z <==> x == z[0] || x in z[1..];
        assert x in [z[0]] + r <==> x == z[0] || x in r;
      }
    }
  }

  lemma ZAddEntries(z: seq<Entry>, score: real, id: OrderId)
    requires Sorted(z)
    ensures Sorted(ZAdd(z, score, id))
    ensures forall x :: x in ZAdd(z, score, id) <==> x == Entry(score, id) || (x in z && x.member != id)
  {
    ZRemEntries(z, id);
    ZInsertEntries(ZRem(z, id), Entry(score, id));
  }

  lemma HeadAndTail(z: seq<Entry>)
    requires Sorted(z) && z != []
    ensures forall e :: e in z ==> e == z[0] || Before(z[0], e)
    ensures forall e :: e in z[1..] <==> e in z && e != z[0]
  {
    assert forall e :: e in z <==> e == z[0] || e in z[1..];
  }

  lemma SomeEntry(z: seq<Entry>)
    ensures z == [] || exists e :: e in z
  {
    if z != [] { assert z[0] in z; }
  }

  // A sorted set is determined by its entries.
  lemma {:induction false} SortedUnique(a: seq<Entry>, b: seq<Entry>)
    requires Sorted(a) && Sorted(b)
    requires forall e :: e in a <==> e in b
    ensures a == b
  {
    if a != [] {
      assert a[0] in b;
      HeadAndTail(a);
      HeadAndTail(b);
      assert b[0] in b;
      assert a[0] == b[0];
      SortedUnique(a[1..], b[1..]);
      assert a == [a[0]] + a[1..] && b == [b[0]] + b[1..];
    } else {
      SomeEntry(b);
    }
  }
}
