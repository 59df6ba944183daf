/** In what order a sweep serves a heap: as the queue the heap unrolls to, however its ties lie. */
module HeapService {
  import opened PriceTimeBook
  import opened TimedQueue
  import opened BookHeap
  import opened HeapBook
  import opened PopOrder
  import opened HeapSweeps

  // ---------- A heap unrolls in order ----------

  lemma SortedOnward(resting: Side, best: Order, rest: seq<Order>)
    requires SortedByPriceTime(resting, rest)
    requires forall i :: 0 <= i < |rest| ==> !Before(resting, rest[i], best)
    ensures SortedByPriceTime(resting, [best] + rest)
  {
  }

  /** A heap gives up its entries by price, then time. */
  lemma {:induction false} UnrolledSorted(resting: Side, h: seq<Order>)
    requires IsHeap(resting, h)
    ensures SortedByPriceTime(resting, Unrolled(resting, h))
    decreases |h|
  {
    hide HeapPop, SortedByPriceTime;
    if h == [] {
      NothingSorted(resting);
    } else {
      PopKeepsHeap(resting, h);
      UnrolledSorted(resting, HeapPop(resting, h));
      var rest := Unrolled(resting, HeapPop(resting, h));
      forall i | 0 <= i < |rest|
        ensures !Before(resting, rest[i], h[0])
      {
        assert rest[i] in multiset(rest);
        assert rest[i] in multiset(h);
        var j :| 0 <= j < |h| && h[j] == rest[i];
        RootIsLeast(resting, h, j);
      }
      SortedOnward(resting, h[0], rest);
    }
  }

  lemma NothingSorted(resting: Side)
    ensures SortedByPriceTime(resting, [])
  {
  }

  // ---------- One turn serves the head of the queue ----------

  /** What a heap holds once its root is gone does not depend on that root. */
  lemma PopForgetsRoot(resting: Side, h: seq<Order>, x: Order)
    requires h != []
    ensures HeapPop(resting, h[0 := x]) == HeapPop(resting, h)
  {
    hide SinkToLeaf, BubbleUp;
    var g := h[0 := x];
    if |h| > 1 {
      PopIs(resting, h);
      PopIs(resting, g);
      assert [g[|g| - 1]] + g[1..|g| - 1] == [h[|h| - 1]] + h[1..|h| - 1];
    }
  }

  lemma UnrolledHead(resting: Side, h: seq<Order>)
    requires h != []
    ensures Unrolled(resting, h) == [h[0]] + Unrolled(resting, HeapPop(resting, h))
    ensures Unrolled(resting, h)[0] == h[0] && Unrolled(resting, h)[1..] == Unrolled(resting, HeapPop(resting, h))
  {
    hide HeapPop;
  }

  lemma RootReplaced(resting: Side, h: seq<Order>, x: Order)
    requires h != []
    ensures Unrolled(resting, h[0 := x]) == [x] + Unrolled(resting, h)[1..]
  {
    hide HeapPop, Unrolled;
    PopForgetsRoot(resting, h, x);
    UnrolledHead(resting, h);
    UnrolledHead(resting, h[0 := x]);
  }

  /** A turn of the matching loop on a queue. */
  function Served(f: Fill): Fill
    requires f.book != []
  {
    var best := f.book[0];
    var m := Min(f.left, best.qty);
    Fill(if Spent(f) then f.book[1..] else [best.(qty := best.qty - m)] + f.book[1..], f.left - m,
         f.filled + m, best.price)
  }

  lemma SweepServes(resting: Side, bound: Bound, f: Fill)
    ensures Sweep(resting, bound, f)
            == if !Goes(resting, bound, f) then f
               else if Spent(f) then Sweep(resting, bound, Served(f)) else Served(f)
  {
  }

  /** A sweep in progress, seen as one of the queue. */
  function Queued(resting: Side, f: Fill): Fill {
    f.(book := Unrolled(resting, f.book))
  }

  lemma GoesAlike(resting: Side, bound: Bound, f: Fill)
    ensures Goes(resting, bound, Queued(resting, f)) <==> Goes(resting, bound, f)
    ensures f.book != [] ==> Queued(resting, f).book != [] && (Spent(Queued(resting, f)) <==> Spent(f))
  {
    hide Unrolled, Crosses;
    if f.book != [] {
      UnrolledHead(resting, f.book);
    }
  }

  /** What a turn makes of the fill, given what becomes of the book. */
  function TradedTo(f: Fill, book: seq<Order>): Fill
    requires f.book != []
  {
    var m := Min(f.left, f.book[0].qty);
    Fill(book, f.left - m, f.filled + m, f.book[0].price)
  }

  function Shrunk(f: Fill): Order
    requires f.book != []
  {
    f.book[0].(qty := f.book[0].qty - Min(f.left, f.book[0].qty))
  }

  lemma TurnTrades(resting: Side, h: HeapFill)
    requires h.fill.book != []
    ensures HeapTurn(resting, h).fill
            == TradedTo(h.fill,
                        if Spent(h.fill) then HeapPop(resting, h.fill.book) else h.fill.book[0 := Shrunk(h.fill)])
  {
    hide HeapPop, Min;
  }

  lemma ServedTrades(f: Fill)
    requires f.book != []
    ensures Served(f) == TradedTo(f, if Spent(f) then f.book[1..] else [Shrunk(f)] + f.book[1..])
  {
    hide Min;
  }

  lemma QueueTrades(resting: Side, f: Fill, book: seq<Order>)
    requires f.book != [] && Queued(resting, f).book != [] && Queued(resting, f).book[0] == f.book[0]
    ensures Queued(resting, TradedTo(f, book)) == TradedTo(Queued(resting, f), Unrolled(resting, book))
    ensures Shrunk(Queued(resting, f)) == Shrunk(f)
  {
    hide Min, Unrolled;
  }

  lemma TurnServes(resting: Side, h: HeapFill)
    requires h.fill.book != [] && Queued(resting, h.fill).book != []
    ensures Queued(resting, HeapTurn(resting, h).fill) == Served(Queued(resting, h.fill))
  {
    hide HeapPop, Unrolled, HeapTurn, Served, Traded, Shrunk;
    var f, q := h.fill, Queued(resting, h.fill);
    UnrolledHead(resting, f.book);
    TurnTrades(resting, h);
    ServedTrades(q);
    if Spent(f) {
      QueueTrades(resting, f, HeapPop(resting, f.book));
    } else {
      QueueTrades(resting, f, f.book[0 := Shrunk(f)]);
      RootReplaced(resting, f.book, Shrunk(f));
    }
  }

  /** However the heap's ties lie, a sweep of it is the sweep of the queue it unrolls to: same
      quantities and price, what remains unrolls to what remains of the queue, and what it pops
      is the front of the queue, in order. */
  lemma {:induction false} HeapSweepServes(resting: Side, bound: Bound, h: HeapFill)
    ensures var r := HeapSweep(resting, bound, h);
            var q := Unrolled(resting, h.fill.book);
            && Queued(resting, r.fill) == Sweep(resting, bound, Queued(resting, h.fill))
            && |r.fill.book| <= |q| && r.popped == h.popped + q[..|q| - |r.fill.book|]
    decreases |h.fill.book|
  {
    hide HeapPop, HeapTurn, Unrolled, Sweep, Crosses;
    var q := Unrolled(resting, h.fill.book);
    SweepServes(resting, bound, Queued(resting, h.fill));
    GoesAlike(resting, bound, h.fill);
    if Goes(resting, bound, h.fill) {
      TurnServes(resting, h);
      if Spent(h.fill) {
        HeapSweepServes(resting, bound, HeapTurn(resting, h));
        UnrolledHead(resting, h.fill.book);
        var n := |q[1..]| - |HeapSweep(resting, bound, h).fill.book|;
        HeadJoined(h.popped, h.fill.book[0], q[1..], n);
        SpentPops(resting, h);
      } else {
        StopSplits(resting, bound, h);
        assert q[..0] == [];
      }
    } else {
      assert q[..0] == [];
    }
  }

  lemma HeadJoined(before: seq<Order>, best: Order, q: seq<Order>, n: nat)
    requires n <= |q|
    ensures before + [best] + q[..n] == before + ([best] + q)[..n + 1]
  {
    assert ([best] + q)[..n + 1] == [best] + q[..n];
  }

  // ---------- What follows for any heap ----------

  lemma UnrolledNonNegative(resting: Side, h: seq<Order>)
    requires NonNegative(h)
    ensures NonNegative(Unrolled(resting, h))
  {
    hide Unrolled;
    var q := Unrolled(resting, h);
    forall i | 0 <= i < |q|
      ensures q[i].qty >= 0
    {
      assert q[i] in multiset(q);
      assert q[i] in multiset(h);
    }
  }

  /** A sweep of a heap eats a prefix of the queue the heap unrolls to, which is in price-time
      order; at most one further entry, the next, trades in part; and what the prefix holds is
      what is popped. */
  lemma HeapSweepTakesPrefix(resting: Side, bound: Bound, h: HeapFill) returns (n: nat)
    requires IsHeap(resting, h.fill.book) && NonNegative(h.fill.book)
    ensures var r := HeapSweep(resting, bound, h);
            var q := Unrolled(resting, h.fill.book);
            && SortedByPriceTime(resting, q)
            && PrefixSwept(resting, bound, Queued(resting, h.fill), Queued(resting, r.fill), n)
            && n <= |q| && r.popped == h.popped + q[..n]
  {
    hide Unrolled, HeapSweep, Sweep, Crosses, IsHeap, SortedByPriceTime;
    UnrolledSorted(resting, h.fill.book);
    UnrolledNonNegative(resting, h.fill.book);
    HeapSweepServes(resting, bound, h);
    n := SweepTakesPrefix(resting, bound, Queued(resting, h.fill));
  }

  /** What stays of the queue is what was there, but that the first may have shrunk. */
  lemma PrefixRest(resting: Side, bound: Bound, f: Fill, r: Fill, n: nat)
    requires PrefixSwept(resting, bound, f, r, n)
    ensures n <= |f.book| && HeadShrunk(f.book[n..], r.book)
  {
    hide Crosses;
    var s, partial := f.book, r.filled - f.filled - Total(f.book[..n]);
    if partial != 0 {
      assert s[n..][0] == s[n] && s[n..][1..] == s[n + 1..];
    }
  }

  /** Price-time priority on a heap: once an entry has been traded with, or popped, every entry
      that precedes it in price and time has been popped, and nothing of it stays. */
  lemma HeapPriority(resting: Side, bound: Bound, h: HeapFill, a: Order, b: Order)
    requires IsHeap(resting, h.fill.book) && NonNegative(h.fill.book)
    requires a in h.fill.book && Before(resting, a, b)
    requires var r := HeapSweep(resting, bound, h); multiset(r.fill.book)[b] < multiset(h.fill.book)[b]
    ensures var r := HeapSweep(resting, bound, h);
            && (forall o :: o in r.fill.book ==> o.price != a.price || o.ts != a.ts)
            && |h.popped| <= |r.popped|
            && multiset(r.popped[|h.popped|..])[a] == multiset(h.fill.book)[a]
  {
    hide Unrolled, HeapSweep, IsHeap, PrefixSwept, HeadShrunk, SortedByPriceTime;
    var r := HeapSweep(resting, bound, h);
    var q := Unrolled(resting, h.fill.book);
    var n := HeapSweepTakesPrefix(resting, bound, h);
    PrefixRest(resting, bound, Queued(resting, h.fill), Queued(resting, r.fill), n);
    assert r.popped[|h.popped|..] == q[..n];
    var rest := Unrolled(resting, r.fill.book);
    assert multiset(rest) == multiset(r.fill.book) && multiset(q) == multiset(h.fill.book);
    QueuePriority(resting, q, n, rest, a, b);
    forall o | o in r.fill.book
      ensures o.price != a.price || o.ts != a.ts
    {
      assert o in multiset(rest);
    }
  }

  lemma QueuePriority(resting: Side, q: seq<Order>, n: nat, rest: seq<Order>, a: Order, b: Order)
    requires SortedByPriceTime(resting, q) && n <= |q| && HeadShrunk(q[n..], rest)
    requires Before(resting, a, b) && multiset(rest)[b] < multiset(q)[b]
    ensures forall i :: 0 <= i < |rest| ==> rest[i].price != a.price || rest[i].ts != a.ts
    ensures multiset(q[..n])[a] == multiset(q)[a]
  {
    hide Before, SortedByPriceTime, HeadShrunk;
    var j := TouchedAt(q, n, rest, b);
    NoneBehind(resting, q, j, a);
    assert q == q[..n] + q[n..];
    assert a !in q[n..] by {
      assert forall i :: 0 <= i < |q[n..]| ==> q[n..][i] == q[n + i];
    }
    ShrunkKeys(q[n..], rest);
    forall i | 0 <= i < |rest|
      ensures rest[i].price != a.price || rest[i].ts != a.ts
    {
      assert q[n..][i] == q[n + i];
    }
  }

  /** What precedes an entry of the queue stands in front of it. */
  lemma NoneBehind(resting: Side, q: seq<Order>, j: nat, a: Order)
    requires SortedByPriceTime(resting, q) && j < |q| && Before(resting, a, q[j])
    ensures forall i :: j <= i < |q| ==> q[i].price != a.price || q[i].ts != a.ts
  {
    forall i | j <= i < |q|
      ensures q[i].price != a.price || q[i].ts != a.ts
    {
      assert i > j ==> !Before(resting, q[i], q[j]);
    }
  }

  lemma ShrunkKeys(s: seq<Order>, r: seq<Order>)
    requires HeadShrunk(s, r)
    ensures |r| == |s| && forall i :: 0 <= i < |s| ==> r[i].price == s[i].price && r[i].ts == s[i].ts
  {
  }

  /** Of an entry fewer stand than stood only if one was among the first n + 1. */
  lemma TouchedAt(q: seq<Order>, n: nat, rest: seq<Order>, b: Order) returns (j: nat)
    requires n <= |q| && HeadShrunk(q[n..], rest) && multiset(rest)[b] < multiset(q)[b]
    ensures j <= n && j < |q| && q[j] == b
  {
    var tail := q[n..];
    assert q == q[..n] + tail;
    if b in q[..n] {
      j :| 0 <= j < n && q[..n][j] == b;
    } else {
      j := n;
      if tail == [] || tail[0] != b {
        KeptAll(tail, rest, b);
      }
    }
  }

  lemma KeptAll(s: seq<Order>, r: seq<Order>, b: Order)
    requires HeadShrunk(s, r) && (s != [] ==> s[0] != b)
    ensures multiset(s)[b] <= multiset(r)[b]
  {
    if s != [] {
      assert s == [s[0]] + s[1..] && r == [r[0]] + s[1..];
    }
  }
}
