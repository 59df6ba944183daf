/** Whole histories: both engines, started empty and fed the same requests, against the
    reference book and against each other. */
module EngineAgreement {
  import opened PriceTimeBook
  import opened TimedQueue
  import opened BookHeap
  import opened HeapBook
  import opened LazyQueueBook
  import opened LazyCancellation
  import opened PopOrder
  import opened HeapQueues
  import opened Histories
  import opened HeapHistories
  import opened DictionaryExact
  import opened DictionaryHistories
  import Vectors = SortedVectorBook

  // ---------- The C++ engine is the reference book under a strict clock ----------

  lemma SuffixStamps(s: seq<Order>, rest: seq<Order>, now: int)
    requires SuffixOf(s, rest) && StampedBefore(s, now)
    ensures StampedBefore(rest, now)
  {
    SuffixIds(s, rest);
  }

  lemma PlacedStamps(side: Side, s: seq<Order>, o: Order, later: int)
    requires SortedByPrice(side, s) && StampedBefore(s, later) && o.ts.time < later
    ensures StampedBefore(Place(side, s, o), later)
  {
    var k := PlaceAt(side, s, o);
    assert forall i :: k < i <= |s| ==> (s[..k] + [o] + s[k..])[i] == s[i - 1];
  }

  lemma RemovedStamps(s: seq<Order>, id: string, now: int)
    requires HasId(s, id) && StampedBefore(s, now)
    ensures StampedBefore(Remove(s, id), now)
  {
    var k := RemoveAt(s, id);
  }

  lemma TakeStamps(b: Book, side: Side, bound: Bound, qty: int, now: int)
    requires BookBefore(b, now) && NonNegative(b.Of(Opposite(side)))
    ensures StampedBefore(Take(b, side, bound, qty).book, now)
  {
    var f := Fill(b.Of(Opposite(side)), qty, 0, 0);
    SweepLeavesSuffix(Opposite(side), bound, f);
    SuffixStamps(f.book, Sweep(Opposite(side), bound, f).book, now);
  }

  lemma StepStamps(b: Book, r: Request, now: Stamp, later: int)
    requires BookBefore(b, now.time) && now.time < later && Ordered(b)
    ensures BookBefore(Step(b, r, now).book, later)
  {
    match r
    case Limit(id, side, price, qty) =>
      TakeStamps(b, side, AtLimit(price), qty, now.time);
      PlacedStamps(side, b.Of(side), Order(id, price, Take(b, side, AtLimit(price), qty).left, now), later);
    case Market(id, side, qty) =>
      TakeStamps(b, side, AtMarket, qty, now.time);
    case Cancel(id) =>
      if HasId(b.bids, id) {
        RemovedStamps(b.bids, id, now.time);
      } else if HasId(b.asks, id) {
        RemovedStamps(b.asks, id, now.time);
      }
  }

  /** On a book stamped in the past, the vectors do exactly what the reference book does. */
  lemma {:induction false} EngineStepIsStep(b: Book, r: Request, now: Stamp)
    requires Vectors.ValidVectors(b) && BookBefore(b, now.time)
    ensures Vectors.EngineStep(b, r, now) == Step(b, r, now)
  {
    if r.Limit? {
      var f := Take(b, r.side, AtLimit(r.price), r.qty);
      InsertedIsPlacedIff(r.side, b.Of(r.side), Order(r.id, r.price, f.left, now));
    }
  }

  lemma {:induction false} VectorBookIsSpecBook(es: seq<Event>, later: int)
    requires Clocked(es) && (es != [] ==> Last(es).now < later)
    ensures VectorBook(es) == SpecBook(es) && (es != [] ==> VectorAck(es) == SpecAck(es))
    ensures Vectors.ValidVectors(SpecBook(es)) && BookBefore(SpecBook(es), later)
  {
    if es != [] {
      var b, e := SpecBook(Front(es)), Last(es);
      VectorBookIsSpecBook(Front(es), e.now);
      EngineStepIsStep(b, e.req, Now(es));
      Vectors.EngineStepKeepsValid(b, e.req, Now(es));
      PriceTimeIsByPrice(Buy, b.bids);
      PriceTimeIsByPrice(Sell, b.asks);
      StepStamps(b, e.req, Now(es), later);
    }
  }

  // ---------- Each heap holds orders of its side ----------

  predicate PlacedOn(es: seq<Event>, side: Side, o: Order) {
    o.ts.no < |es| && es[o.ts.no].req.Limit? && es[o.ts.no].req.side == side
  }

  predicate OnSide(es: seq<Event>, side: Side, s: seq<Order>) {
    forall i :: 0 <= i < |s| ==> PlacedOn(es, side, s[i])
  }

  lemma OnSideLater(es: seq<Event>, side: Side, s: seq<Order>)
    requires es != [] && OnSide(Front(es), side, s)
    ensures OnSide(es, side, s)
  {
    forall i | 0 <= i < |s|
      ensures PlacedOn(es, side, s[i])
    {
      assert PlacedOn(Front(es), side, s[i]);
    }
  }

  lemma TakenOnSide(es: seq<Event>, b: Book, side: Side, bound: Bound, qty: int)
    requires OnSide(es, Opposite(side), b.Of(Opposite(side)))
    ensures OnSide(es, Opposite(side), HeapTake(b, side, bound, qty).fill.book)
  {
    hide HeapTake, PlacedOn;
    TakenFrom(b, side, bound, qty);
    var r, s := HeapTake(b, side, bound, qty).fill.book, b.Of(Opposite(side));
    forall i | 0 <= i < |r|
      ensures PlacedOn(es, Opposite(side), r[i])
    {
      assert Stems(r[i], s);
      var j :| 0 <= j < |s| && r[i] == s[j].(qty := r[i].qty);
      SameStampPlaced(es, Opposite(side), s[j], r[i]);
    }
  }

  lemma SameStampPlaced(es: seq<Event>, side: Side, o: Order, p: Order)
    requires PlacedOn(es, side, o) && p.ts == o.ts
    ensures PlacedOn(es, side, p)
  {
  }

  lemma PushedOnSide(es: seq<Event>, side: Side, h: seq<Order>, o: Order)
    requires OnSide(es, side, h) && PlacedOn(es, side, o)
    ensures OnSide(es, side, HeapPush(side, h, o))
  {
    hide HeapPush, PlacedOn;
    PushedMembers(side, h, o);
    var r := HeapPush(side, h, o);
    forall i | 0 <= i < |r|
      ensures PlacedOn(es, side, r[i])
    {
      if r[i] != o {
        var j :| 0 <= j < |h| && h[j] == r[i];
      }
    }
  }

  lemma ZeroedOnSide(es: seq<Event>, side: Side, s: seq<Order>, ts: Stamp)
    requires OnSide(es, side, s)
    ensures OnSide(es, side, Zeroed(s, ts))
  {
    forall i | 0 <= i < |s|
      ensures PlacedOn(es, side, Zeroed(s, ts)[i])
    {
      assert PlacedOn(es, side, s[i]);
    }
  }

  predicate Sided(es: seq<Event>, b: Book) {
    OnSide(es, Buy, b.bids) && OnSide(es, Sell, b.asks)
  }

  lemma StepSided(es: seq<Event>, b: Lazy)
    requires es != [] && Sided(Front(es), b.book)
    ensures Sided(es, HeapStep(b, Last(es).req, Now(es)).lazy.book)
  {
    hide HeapTake, HeapPush, OnSide, Zeroed;
    OnSideLater(es, Buy, b.book.bids);
    OnSideLater(es, Sell, b.book.asks);
    match Last(es).req
    case Limit(id, side, price, qty) =>
      TakenOnSide(es, b.book, side, AtLimit(price), qty);
      var h := HeapTake(b.book, side, AtLimit(price), qty);
      PushedOnSide(es, side, b.book.Of(side), Order(id, price, h.fill.left, Now(es)));
    case Market(id, side, qty) =>
      TakenOnSide(es, b.book, side, AtMarket, qty);
    case Cancel(id) =>
      if id in b.index {
        ZeroedOnSide(es, Buy, b.book.bids, b.index[id]);
        ZeroedOnSide(es, Sell, b.book.asks, b.index[id]);
      }
  }

  lemma {:induction false} AlwaysSided(es: seq<Event>)
    ensures Sided(es, HeapState(es).book)
  {
    hide HeapStep;
    if es != [] {
      AlwaysSided(Front(es));
      StepSided(es, HeapState(Front(es)));
    }
  }

  // ---------- The Python engine is the C++ engine when ids and keys are fresh ----------

  lemma NewKeyIsFree(es: seq<Event>, h: seq<Order>, q: seq<Order>, o: Order)
    requires es != [] && FreshKeys(es) && Last(es).req.Limit?
    requires o.price == Last(es).req.price && o.ts == Now(es) && multiset(h) == multiset(q)
    requires OnSide(Front(es), Last(es).req.side, h) && Introduced(Front(es), multiset(h))
    ensures KeyFree(q, o)
  {
    forall i | 0 <= i < |q|
      ensures !SameKey(q[i], o)
    {
      assert q[i] in multiset(h);
      var j :| 0 <= j < |h| && h[j] == q[i];
      var k := q[i].ts.no;
      assert PlacedBy(Front(es), k, q[i]) && PlacedOn(Front(es), Last(es).req.side, h[j]);
      if q[i].price == o.price {
        assert QueueTogether(es[k].req, es[|es| - 1].req);
      }
    }
  }

  lemma NewIdIsUnused(es: seq<Event>, b: Book, l: Book)
    requires es != [] && FreshIds(es) && Last(es).req.Limit? && Introduced(Front(es), Entries(b))
    requires multiset(b.bids) == multiset(l.bids) && multiset(b.asks) == multiset(l.asks)
    ensures Unused(l, Last(es).req.id, Now(es))
  {
    FreshRest(es, Entries(b));
    forall o | o in l.bids || o in l.asks
      ensures o.id != Last(es).req.id && o.ts != Now(es)
    {
      assert o in multiset(l.bids) || o in multiset(l.asks);
      assert o in Entries(b);
      assert PlacedBy(Front(es), o.ts.no, o);
    }
  }

  lemma IntroducedOn(es: seq<Event>, b: Book, side: Side)
    requires Introduced(es, Entries(b))
    ensures Introduced(es, multiset(b.Of(side)))
  {
    forall o | o in multiset(b.Of(side))
      ensures PlacedBy(es, o.ts.no, o)
    {
      assert o in Entries(b);
    }
  }

  /** As long as no two limit orders of one side and price read the same time, the heaps are the
      queues and every acknowledgement is the same, whatever the ids. */
  lemma {:induction false} HeapStateMirrors(es: seq<Event>)
    requires FreshKeys(es)
    ensures MirrorsBook(HeapState(es), QueueState(es)) && (es != [] ==> HeapAck(es) == QueueAck(es))
  {
    hide HeapStep, LazyStep, Mirrors, Introduced, OnSide;
    if es == [] {
      EmptyMirrors();
    } else {
      var past, r := Front(es), Last(es).req;
      HeapStateMirrors(past);
      var b, l := HeapState(past), QueueState(past);
      if r.Limit? {
        AlwaysSided(past);
        AlwaysIntroduced(past);
        IntroducedOn(past, b.book, r.side);
        MirrorsEntries(r.side, b.book.Of(r.side), l.book.Of(r.side));
        NewKeyIsFree(es, b.book.Of(r.side), l.book.Of(r.side), Order(r.id, r.price, r.qty, Now(es)));
      }
      StepMirrors(b, l, r, Now(es));
    }
  }

  lemma MirrorsEntries(side: Side, h: seq<Order>, q: seq<Order>)
    requires Mirrors(side, h, q)
    ensures multiset(h) == multiset(q)
  {
  }

  lemma EmptyMirrors()
    ensures MirrorsBook(Lazy(EmptyBook, map[]), Lazy(EmptyBook, map[]))
  {
  }

  /** Then, with fresh ids, the heap book with lazy cancellation refines the sorted vectors: its
      live orders are theirs and all but the quoted price is acknowledged alike, even under a
      clock that runs backwards. */
  lemma {:induction false} HeapStateIsVectorBook(es: seq<Event>)
    requires FreshKeys(es) && FreshIds(es)
    ensures MirrorsBook(HeapState(es), QueueState(es)) && ExactBook(QueueState(es))
    ensures Live(QueueState(es).book) == VectorBook(es)
    ensures es != [] ==> SameFill(HeapAck(es), VectorAck(es))
  {
    hide HeapStep, LazyStep, Mirrors, Introduced, ExactBook, Vectors.EngineStep, Entries, Unused;
    HeapStateMirrors(es);
    if es == [] {
      EmptyBookExact();
    } else {
      var past, r := Front(es), Last(es).req;
      HeapStateIsVectorBook(past);
      var b, l := HeapState(past), QueueState(past);
      if r.Limit? {
        AlwaysIntroduced(past);
        MirrorsEntries(Buy, b.book.bids, l.book.bids);
        MirrorsEntries(Sell, b.book.asks, l.book.asks);
        NewIdIsUnused(es, b.book, l.book);
      }
      LazyStepAgrees(l, r, Now(es));
    }
  }

  lemma EmptyBookExact()
    ensures ExactBook(Lazy(EmptyBook, map[])) && Live(EmptyBook) == EmptyBook
  {
  }

  /** The live orders of the heaps, as they would be served. */
  function LiveOrders(b: Book): Book {
    Book(LiveOf(Unrolled(Buy, b.bids)), LiveOf(Unrolled(Sell, b.asks)))
  }

  /** Fed the same requests, with fresh ids and no two limit orders of one side, price and time,
      the two engines give the same answers, quoted prices aside, and hold the same live orders
      in the same order. */
  lemma {:induction false} EnginesAgree(es: seq<Event>)
    requires FreshKeys(es) && FreshIds(es)
    ensures LiveOrders(HeapState(es).book) == VectorBook(es)
    ensures es != [] ==> SameFill(HeapAck(es), VectorAck(es))
  {
    hide LiveOf, ExactBook, Mirrors, Unrolled;
    HeapStateIsVectorBook(es);
    UnrolledMirrors(Buy, HeapState(es).book.bids, QueueState(es).book.bids);
    UnrolledMirrors(Sell, HeapState(es).book.asks, QueueState(es).book.asks);
  }

  /** With a strictly increasing clock both are the reference book. */
  lemma {:induction false} HeapStateIsSpecBook(es: seq<Event>)
    requires Clocked(es) && FreshIds(es)
    ensures LiveOrders(HeapState(es).book) == SpecBook(es)
    ensures es != [] ==> SameFill(HeapAck(es), SpecAck(es))
  {
    hide LiveOf, Unrolled;
    EnginesAgree(es);
    VectorBookIsSpecBook(es, if es == [] then 0 else Last(es).now + 1);
  }
}
