/** With no two entries of a side sharing price and time, the heaps are the queues. */
module HeapQueues {
  import opened PriceTimeBook
  import opened TimedQueue
  import opened BookHeap
  import opened HeapBook
  import opened HeapSweeps
  import opened LazyQueueBook
  import opened PopOrder
  import opened HeapService

  /** The queue has the heap's entries in the order in which the heap gives them up. */
  predicate Mirrors(side: Side, h: seq<Order>, q: seq<Order>) {
    IsHeap(side, h) && multiset(h) == multiset(q) && SortedByPriceTime(side, q) && KeysDistinct(q)
  }

  predicate MirrorsBook(b: Lazy, l: Lazy) {
    Mirrors(Buy, b.book.bids, l.book.bids) && Mirrors(Sell, b.book.asks, l.book.asks) && b.index == l.index
  }

  lemma SortedIsHeap(side: Side, q: seq<Order>)
    requires SortedByPriceTime(side, q)
    ensures IsHeap(side, q)
  {
  }

  lemma MirrorRoot(side: Side, h: seq<Order>, q: seq<Order>)
    requires Mirrors(side, h, q)
    ensures |h| == |q| && (h != [] ==> h[0] == q[0])
  {
    assert |multiset(h)| == |h| && |multiset(q)| == |q|;
    if h != [] {
      SortedIsHeap(side, q);
      SameRoot(side, q, h);
    }
  }

  lemma MirrorPop(side: Side, h: seq<Order>, q: seq<Order>)
    requires Mirrors(side, h, q) && h != []
    ensures q != [] && Mirrors(side, HeapPop(side, h), q[1..])
  {
    hide HeapPop, IsHeap;
    MirrorRoot(side, h, q);
    PopKeepsHeap(side, h);
    TailMultiset(q);
    assert multiset(HeapPop(side, h)) == multiset(h) - multiset{h[0]};
    SortedTail(side, q);
  }

  lemma SortedTail(side: Side, q: seq<Order>)
    requires SortedByPriceTime(side, q) && KeysDistinct(q) && q != []
    ensures SortedByPriceTime(side, q[1..]) && KeysDistinct(q[1..])
  {
  }

  /** A heap unrolls to the queue that mirrors it. */
  lemma {:induction false} UnrolledMirrors(side: Side, h: seq<Order>, q: seq<Order>)
    requires Mirrors(side, h, q)
    ensures Unrolled(side, h) == q
    decreases |h|
  {
    hide Mirrors, HeapPop;
    MirrorRoot(side, h, q);
    if h != [] {
      MirrorPop(side, h, q);
      UnrolledMirrors(side, HeapPop(side, h), q[1..]);
    }
  }

  lemma {:induction false} SweepKeepsKeys(resting: Side, bound: Bound, f: Fill)
    requires KeysDistinct(f.book)
    ensures KeysDistinct(Sweep(resting, bound, f).book)
    decreases |f.book|
  {
    SweepServes(resting, bound, f);
    if Goes(resting, bound, f) && Spent(f) {
      SweepKeepsKeys(resting, bound, Served(f));
    }
  }

  /** A sweep of the heap leaves what mirrors what the sweep of the queue leaves. */
  lemma SweepMirrors(resting: Side, bound: Bound, h: HeapFill, q: seq<Order>)
    requires Mirrors(resting, h.fill.book, q)
    ensures var r, f := HeapSweep(resting, bound, h), Sweep(resting, bound, h.fill.(book := q));
            && Mirrors(resting, r.fill.book, f.book) && f == r.fill.(book := f.book)
            && |f.book| <= |q| && r.popped == h.popped + q[..|q| - |f.book|]
  {
    hide HeapSweep, Sweep, Unrolled, IsHeap, SortedByPriceTime, KeysDistinct;
    var r := HeapSweep(resting, bound, h);
    UnrolledMirrors(resting, h.fill.book, q);
    HeapSweepServes(resting, bound, h);
    HeapSweepKeeps(resting, bound, h);
    UnrolledSorted(resting, r.fill.book);
    SweepKeepsKeys(resting, bound, Queued(resting, h.fill));
  }

  lemma TakeMirrors(b: Lazy, l: Lazy, side: Side, bound: Bound, qty: int)
    requires MirrorsBook(b, l)
    ensures var h := HeapTake(b.book, side, bound, qty);
            var f := Take(l.book, side, bound, qty);
            && MirrorsBook(HeapSwept(b, Opposite(side), h), Swept(l, Opposite(side), f))
            && h.fill.left == f.left && h.fill.filled == f.filled && h.fill.price == f.price
  {
    hide HeapSweep, Sweep, Mirrors;
    var resting := Opposite(side);
    var q, f := l.book.Of(resting), Take(l.book, side, bound, qty);
    SweepMirrors(resting, bound, HeapFill(Fill(b.book.Of(resting), qty, 0, 0), []), q);
    assert [] + q[..|q| - |f.book|] == q[..|q| - |f.book|];
  }

  // ---------- Placement ----------

  /** No order of the queue shares price and time with this one. */
  predicate KeyFree(q: seq<Order>, o: Order) {
    forall i :: 0 <= i < |q| ==> !SameKey(q[i], o)
  }

  lemma PushMirrors(side: Side, h: seq<Order>, q: seq<Order>, o: Order)
    requires Mirrors(side, h, q) && KeyFree(q, o)
    ensures Mirrors(side, HeapPush(side, h, o), Inserted(side, q, o))
  {
    hide HeapPush, IsHeap;
    PushKeepsHeap(side, h, o);
    InsertedAround(side, q, o);
    var k := LowerBound(side, q, o);
    var r := q[..k] + [o] + q[k..];
    assert q == q[..k] + q[k..];
    assert multiset(r) == multiset(q) + multiset{o};
    InsertedDistinct(q, k, o);
  }

  lemma InsertedDistinct(q: seq<Order>, k: nat, o: Order)
    requires KeysDistinct(q) && KeyFree(q, o) && k <= |q|
    ensures KeysDistinct(q[..k] + [o] + q[k..])
  {
    var r := q[..k] + [o] + q[k..];
    assert forall i :: 0 <= i < |r| ==> r[i] == if i < k then q[i] else if i == k then o else q[i - 1];
  }

  lemma RestMirrors(b: Lazy, l: Lazy, side: Side, o: Order)
    requires MirrorsBook(b, l) && KeyFree(l.book.Of(side), o)
    ensures MirrorsBook(HeapRested(b, side, o), Rested(l, side, o))
  {
    hide HeapPush, Mirrors;
    PushMirrors(side, b.book.Of(side), l.book.Of(side), o);
  }

  // ---------- Cancellation ----------

  function ZeroedOrder(o: Order, ts: Stamp): Order {
    if o.ts == ts then o.(qty := 0) else o
  }

  lemma {:induction false} ZeroedPermuted(a: seq<Order>, b: seq<Order>, ts: Stamp)
    requires multiset(a) == multiset(b)
    ensures multiset(Zeroed(a, ts)) == multiset(Zeroed(b, ts))
  {
    hide Zeroed;
    if a == [] {
      assert |multiset(b)| == |b|;
    } else {
      var k := PermutedTail(a, b);
      ZeroedPermuted(a[1..], b[..k] + b[k + 1..], ts);
      ZeroedWithout(b, k, ts);
      ZeroedHead(a, ts);
    }
  }

  lemma ZeroedHead(s: seq<Order>, ts: Stamp)
    requires s != []
    ensures multiset(Zeroed(s, ts)) == multiset(Zeroed(s[1..], ts)) + multiset{ZeroedOrder(s[0], ts)}
  {
    assert s[..0] + s[0 + 1..] == s[1..];
    ZeroedWithout(s, 0, ts);
  }

  lemma ZeroedWithout(s: seq<Order>, k: nat, ts: Stamp)
    requires k < |s|
    ensures multiset(Zeroed(s, ts)) == multiset(Zeroed(s[..k] + s[k + 1..], ts)) + multiset{ZeroedOrder(s[k], ts)}
  {
    var z := Zeroed(s, ts);
    assert Zeroed(s[..k] + s[k + 1..], ts) == z[..k] + z[k + 1..];
    WithoutMultiset(z, k);
    assert z[k] in multiset(z);
  }

  lemma ZeroedMirrors(side: Side, h: seq<Order>, q: seq<Order>, ts: Stamp)
    requires Mirrors(side, h, q)
    ensures Mirrors(side, Zeroed(h, ts), Zeroed(q, ts))
  {
    ZeroedPermuted(h, q, ts);
    var z := Zeroed(h, ts);
    forall i | 0 < i < |z|
      ensures InOrder(side, z, i)
    {
      assert InOrder(side, h, i);
    }
    ZeroedSorted(side, q, ts);
  }

  lemma ZeroedSorted(side: Side, q: seq<Order>, ts: Stamp)
    requires SortedByPriceTime(side, q) && KeysDistinct(q)
    ensures SortedByPriceTime(side, Zeroed(q, ts)) && KeysDistinct(Zeroed(q, ts))
  {
    var z := Zeroed(q, ts);
    forall i, j | 0 <= i < j < |z|
      ensures !Before(side, z[j], z[i]) && !SameKey(z[i], z[j])
    {
      assert !Before(side, q[j], q[i]) && !SameKey(q[i], q[j]);
    }
  }

  /** One request does the same to both, and is answered the same, provided a limit order brings
      a price and time of which its side has no entry. */
  lemma StepMirrors(b: Lazy, l: Lazy, r: Request, now: Stamp)
    requires MirrorsBook(b, l)
    requires r.Limit? ==> KeyFree(l.book.Of(r.side), Order(r.id, r.price, r.qty, now))
    ensures MirrorsBook(HeapStep(b, r, now).lazy, LazyStep(l, r, now).lazy)
    ensures HeapStep(b, r, now).ack == LazyStep(l, r, now).ack
  {
    hide HeapTake, HeapPush, Sweep, Mirrors, Zeroed;
    match r
    case Limit(id, side, price, qty) =>
      TakeMirrors(b, l, side, AtLimit(price), qty);
      var h := HeapTake(b.book, side, AtLimit(price), qty);
      if h.fill.left > 0 {
        var o := Order(id, price, h.fill.left, now);
        var f := Take(l.book, side, AtLimit(price), qty);
        RestMirrors(HeapSwept(b, Opposite(side), h), Swept(l, Opposite(side), f), side, o);
      }
    case Market(id, side, qty) =>
      TakeMirrors(b, l, side, AtMarket, qty);
    case Cancel(id) =>
      if id in b.index {
        ZeroedMirrors(Buy, b.book.bids, l.book.bids, b.index[id]);
        ZeroedMirrors(Sell, b.book.asks, l.book.asks, b.index[id]);
      }
  }
}
