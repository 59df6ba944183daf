/** Whom the Python engine serves first, over any history, whatever the ids and clock readings. */
module ServiceHistories {
  import opened PriceTimeBook
  import opened TimedQueue
  import opened BookHeap
  import opened HeapBook
  import opened PopOrder
  import opened HeapSweeps
  import opened HeapService
  import opened LazyCancellation
  import opened Histories
  import opened HeapHistories
  import opened DictionaryExact
  import opened DictionaryHistories
  import opened EngineAgreement
  import Vectors = SortedVectorBook

  /** The heap a taker of this side trades with. */
  function Facing(es: seq<Event>, taker: Side): seq<Order> {
    HeapState(es).book.Of(Opposite(taker))
  }

  /** The same entries, ghosts too, as the heap would give them up. */
  function FacingQueue(es: seq<Event>, taker: Side): seq<Order> {
    Unrolled(Opposite(taker), Facing(es, taker))
  }

  lemma FacingSound(es: seq<Event>, taker: Side)
    ensures IsHeap(Opposite(taker), Facing(es, taker)) && NonNegative(Facing(es, taker))
  {
    HeapsNeverCross(es);
  }

  /** In any reachable book a taker eats a prefix of the opposite side in price-time order, and
      at most part of the next entry; exactly the prefix is popped. */
  lemma TakesPrefix(es: seq<Event>, taker: Side, bound: Bound, qty: int) returns (n: nat)
    ensures var q, h := FacingQueue(es, taker), HeapTake(HeapState(es).book, taker, bound, qty);
            && SortedByPriceTime(Opposite(taker), q)
            && PrefixSwept(Opposite(taker), bound, Fill(q, qty, 0, 0), Queued(Opposite(taker), h.fill), n)
            && n <= |q| && h.popped == q[..n]
  {
    hide PrefixSwept, HeapSweep, SortedByPriceTime, IsHeap;
    FacingSound(es, taker);
    n := HeapSweepTakesPrefix(Opposite(taker), bound, HeapFill(Fill(Facing(es, taker), qty, 0, 0), []));
  }

  /** Of the live orders too a taker eats a prefix in price-time order, and part of at most one
      more; ghosts neither shield an order nor let it be passed over. */
  lemma TakesLivePrefix(es: seq<Event>, taker: Side, bound: Bound, qty: int) returns (n: nat)
    ensures var live, f := LiveOf(FacingQueue(es, taker)), HeapTake(HeapState(es).book, taker, bound, qty).fill;
            var g := Sweep(Opposite(taker), bound, Fill(live, qty, 0, 0));
            && SortedByPriceTime(Opposite(taker), live) && AllLive(live)
            && PrefixSwept(Opposite(taker), bound, Fill(live, qty, 0, 0), g, n)
            && g.book == LiveOf(Unrolled(Opposite(taker), f.book)) && g.left == f.left && g.filled == f.filled
  {
    hide HeapSweep, IsHeap, LiveOf, PrefixSwept, Unrolled, SortedByPriceTime, Sweep;
    var resting := Opposite(taker);
    var h := HeapFill(Fill(Facing(es, taker), qty, 0, 0), []);
    var q := FacingQueue(es, taker);
    FacingSound(es, taker);
    UnrolledSorted(resting, Facing(es, taker));
    UnrolledNonNegative(resting, Facing(es, taker));
    HeapSweepServes(resting, bound, h);
    PriceTimeIsByPrice(resting, q);
    SweepIgnoresGhosts(resting, bound, Fill(q, qty, 0, 0), 0);
    LiveOfAllLive(q);
    LiveOfTimed(resting, q);
    n := SweepTakesPrefix(resting, bound, Fill(LiveOf(q), qty, 0, 0));
  }

  lemma LiveOfAllLive(s: seq<Order>)
    ensures AllLive(LiveOf(s))
  {
    LiveOfMembers(s);
  }

  lemma {:induction false} LiveOfTimed(resting: Side, s: seq<Order>)
    requires SortedByPriceTime(resting, s)
    ensures SortedByPriceTime(resting, LiveOf(s))
  {
    hide Before;
    if s != [] {
      LiveOfTimed(resting, s[1..]);
      LiveOfMembers(s[1..]);
      var t := LiveOf(s[1..]);
      forall i | 0 <= i < |t|
        ensures !Before(resting, t[i], s[0])
      {
        var k :| 0 <= k < |s| - 1 && s[1..][k] == t[i];
        assert s[k + 1] == t[i];
      }
      SortedOnward(resting, s[0], t);
    }
  }

  /** Price-time priority: once a taker has touched an entry, every entry of the side with a
      better price, or the same and an earlier stamp, has been popped, and nothing of it stays. */
  lemma EarlierPoppedFirst(es: seq<Event>, taker: Side, bound: Bound, qty: int, a: Order, b: Order)
    requires a in Facing(es, taker) && b in Facing(es, taker) && Before(Opposite(taker), a, b)
    requires b !in HeapTake(HeapState(es).book, taker, bound, qty).fill.book
    ensures var h := HeapTake(HeapState(es).book, taker, bound, qty); a in h.popped && !HasStamp(h.fill.book, a.ts)
  {
    hide HeapSweep, IsHeap, Before, HeapState, Entries;
    var book, resting := HeapState(es).book, Opposite(taker);
    var h := HeapTake(book, taker, bound, qty);
    FacingSound(es, taker);
    var f := HeapFill(Fill(Facing(es, taker), qty, 0, 0), []);
    assert b in multiset(Facing(es, taker)) && multiset(h.fill.book)[b] == 0;
    HeapPriority(resting, bound, f, a, b);
    assert h.popped[0..] == h.popped;
    assert a in multiset(Facing(es, taker)) && a in multiset(h.popped);
    TakenFrom(book, taker, bound, qty);
    forall i | 0 <= i < |h.fill.book|
      ensures h.fill.book[i].ts != a.ts
    {
      assert Stems(h.fill.book[i], Facing(es, taker));
      var e :| e in Facing(es, taker) && h.fill.book[i] == e.(qty := h.fill.book[i].qty);
      StampNames(es, taker, a, e);
    }
  }

  lemma StampNames(es: seq<Event>, taker: Side, a: Order, e: Order)
    requires a in Facing(es, taker) && e in Facing(es, taker)
    ensures a.ts == e.ts ==> a == e
  {
    AlwaysTagged(es);
    var m := Entries(HeapState(es).book);
    assert a in multiset(Facing(es, taker)) && e in multiset(Facing(es, taker));
    assert a in m && e in m;
  }

  /** The quoted price is that of a book without ghosts if and only if the taker wants no more
      than rests at acceptable prices, or the last acceptable entry is priced as the last
      acceptable live one. */
  lemma GhostsShowInQuoteIff(es: seq<Event>, taker: Side, bound: Bound, qty: int)
    ensures var resting, q := Opposite(taker), FacingQueue(es, taker);
            var h := HeapTake(HeapState(es).book, taker, bound, qty);
            h.fill.price == Sweep(resting, bound, Fill(LiveOf(q), qty, 0, 0)).price <==>
              qty <= Depth(resting, bound, Facing(es, taker))
              || LastAcceptable(resting, bound, q, 0) == LastAcceptable(resting, bound, LiveOf(q), 0)
  {
    hide HeapSweep, IsHeap, LiveOf, Depth, Unrolled, SortedByPriceTime, Sweep, LastAcceptable;
    var resting, q := Opposite(taker), FacingQueue(es, taker);
    FacingSound(es, taker);
    UnrolledSorted(resting, Facing(es, taker));
    UnrolledNonNegative(resting, Facing(es, taker));
    HeapSweepServes(resting, bound, HeapFill(Fill(Facing(es, taker), qty, 0, 0), []));
    PriceTimeIsByPrice(resting, q);
    GhostsShowInPriceIff(resting, bound, q, qty);
    DepthPermuted(resting, bound, q, Facing(es, taker));
  }

  // ---------- The two engines' quotes ----------

  function BoundOf(r: Request): Bound {
    if r.Limit? then AtLimit(r.price) else AtMarket
  }

  lemma QuotesAre(b: Lazy, v: Book, r: Request, now: Stamp)
    requires !r.Cancel?
    ensures HeapStep(b, r, now).ack.fillPrice == HeapTake(b.book, r.side, BoundOf(r), r.qty).fill.price
    ensures Vectors.EngineStep(v, r, now).ack.fillPrice == Take(v, r.side, BoundOf(r), r.qty).price
  {
    hide HeapTake, Take;
  }

  /** Where the two engines agree on all else, with fresh ids and no two limit orders of one side
      and price reading the same time, they also quote the same price if and only if the taker
      wants no more than rests at acceptable prices, or the last acceptable entry, ghost or live,
      is priced as the last acceptable order of the vectors. */
  lemma QuotesAgreeIff(es: seq<Event>)
    requires es != [] && !Last(es).req.Cancel? && FreshKeys(es) && FreshIds(es)
    ensures var past, r := Front(es), Last(es).req;
            var resting, bound := Opposite(r.side), BoundOf(r);
            HeapAck(es).fillPrice == VectorAck(es).fillPrice <==>
              r.qty <= Depth(resting, bound, Facing(past, r.side))
              || LastAcceptable(resting, bound, FacingQueue(past, r.side), 0)
                 == LastAcceptable(resting, bound, VectorBook(past).Of(resting), 0)
  {
    hide HeapStep, Vectors.EngineStep, HeapTake, Sweep, Depth, LastAcceptable, LiveOf, Unrolled, HeapState, VectorBook;
    var past, r := Front(es), Last(es).req;
    EnginesAgree(past);
    GhostsShowInQuoteIff(past, r.side, BoundOf(r), r.qty);
    QuotesAre(HeapState(past), VectorBook(past), r, Now(es));
  }
}
