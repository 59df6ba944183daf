/** Where the engines leave the reference book: reused ids, stalled clocks, and the price
    quoted for an order that met only ghosts. */
module BookLimits {
  import opened PriceTimeBook
  import opened TimedQueue
  import opened BookHeap
  import opened HeapBook
  import opened PopOrder
  import opened Histories
  import opened DictionaryExact
  import opened DictionaryHistories
  import Vectors = SortedVectorBook

  lemma Fronts(es: seq<Event>, e: Event)
    ensures Front(es + [e]) == es && Last(es + [e]) == e && Now(es + [e]) == Stamp(e.now, |es|)
  {
  }

  /** An order on the empty book rests, in all three. */
  lemma FirstRests(side: Side, o: Order)
    requires o.qty > 0
    ensures var r, b := Limit(o.id, side, o.price, o.qty), EmptyBook.With(side, [o]);
            && Step(EmptyBook, r, o.ts).book == b && Vectors.EngineStep(EmptyBook, r, o.ts).book == b
            && HeapStep(Lazy(EmptyBook, map[]), r, o.ts).lazy == Lazy(b, map[o.id := o.ts])
  {
    assert Inserted(side, [], o) == [o] && HeapPush(side, [], o) == [o];
    assert DropIds<Stamp>(map[], []) == map[];
  }

  lemma FirstOrder(e: Event)
    requires e.req.Limit? && e.req.qty > 0
    ensures var o := Order(e.req.id, e.req.price, e.req.qty, Stamp(e.now, 0));
            var b := EmptyBook.With(e.req.side, [o]);
            SpecBook([e]) == VectorBook([e]) == b && HeapState([e]) == Lazy(b, map[o.id := o.ts])
  {
    hide Step, Vectors.EngineStep, HeapStep;
    assert [e] == [] + [e];
    Fronts([], e);
    FirstRests(e.req.side, Order(e.req.id, e.req.price, e.req.qty, Stamp(e.now, 0)));
  }

  // ---------- A clock that does not tick ----------

  lemma TiedPositions(a: Order, b: Order)
    requires a.price == b.price && a.ts.time == b.ts.time
    ensures Place(Sell, [a], b) == [a, b] && Inserted(Sell, [a], b) == [b, a] && HeapPush(Sell, [a], b) == [a, b]
  {
    assert [a][1..] == [] && Place(Sell, [], b) == [b];
    assert [a] + [b] == [a, b];
  }

  lemma SecondAsk(a: Order, b: Order)
    requires b.qty > 0 && a.price == b.price && a.ts.time == b.ts.time
    ensures var r := Limit(b.id, Sell, b.price, b.qty);
            && Step(Book([], [a]), r, b.ts).book.asks == [a, b]
            && Vectors.EngineStep(Book([], [a]), r, b.ts).book.asks == [b, a]
            && HeapStep(Lazy(Book([], [a]), map[a.id := a.ts]), r, b.ts).lazy.book.asks == [a, b]
  {
    TiedPositions(a, b);
  }

  /** Two asks of one price read the same time: the C++ engine puts the second before the first,
      the Python engine does not. */
  lemma StalledClockOvertakes(a: string, b: string, price: int, qty: int, now: int)
    requires qty > 0
    ensures var es := [Event(Limit(a, Sell, price, qty), now)] + [Event(Limit(b, Sell, price, qty), now)];
            var first, second := Order(a, price, qty, Stamp(now, 0)), Order(b, price, qty, Stamp(now, 1));
            && SpecBook(es).asks == HeapState(es).book.asks == [first, second]
            && VectorBook(es).asks == [second, first]
  {
    hide Step, Vectors.EngineStep, HeapStep;
    var e, f := Event(Limit(a, Sell, price, qty), now), Event(Limit(b, Sell, price, qty), now);
    FirstOrder(e);
    Fronts([e], f);
    SecondAsk(Order(a, price, qty, Stamp(now, 0)), Order(b, price, qty, Stamp(now, 1)));
  }

  /** Asks of one price that all read the same time, and nothing else. */
  predicate TiedAsks(es: seq<Event>, price: int, now: int) {
    forall i :: 0 <= i < |es| ==>
      es[i].now == now && es[i].req.Limit? && es[i].req.side == Sell && es[i].req.price == price && es[i].req.qty > 0
  }

  /** The orders these requests place. */
  function Placed(es: seq<Event>): (r: seq<Order>)
    requires forall i :: 0 <= i < |es| ==> es[i].req.Limit?
    ensures |r| == |es|
  {
    seq(|es|, i requires 0 <= i < |es| => Order(es[i].req.id, es[i].req.price, es[i].req.qty, Stamp(es[i].now, i)))
  }

  lemma AskRests(asks: seq<Order>, index: map<string, Stamp>, o: Order)
    requires o.qty > 0 && AllTied(Sell, asks + [o])
    ensures HeapStep(Lazy(Book([], asks), index), Limit(o.id, Sell, o.price, o.qty), o.ts).lazy.book
            == Book([], asks + [o])
  {
    TiedPush(Sell, asks, o);
  }

  lemma {:induction false} TiedAsksRest(es: seq<Event>, price: int, now: int)
    requires TiedAsks(es, price, now)
    ensures HeapState(es).book == Book([], Placed(es)) && AllTied(Sell, Placed(es))
  {
    hide HeapStep;
    if es != [] {
      TiedAsksRest(Front(es), price, now);
      var o := Placed(es)[|es| - 1];
      assert Placed(es) == Placed(Front(es)) + [o];
      AskRests(Placed(Front(es)), HeapState(Front(es)).index, o);
    }
  }

  lemma FirstSwept(asks: seq<Order>)
    requires |asks| == 4 && AllTied(Sell, asks) && asks[0].qty > 0
    ensures HeapSweep(Sell, AtMarket, HeapFill(Fill(asks, asks[0].qty, 0, 0), [])).fill.book
            == [asks[2], asks[1], asks[3]]
  {
    hide HeapPop, AllTied;
    var h := HeapFill(Fill(asks, asks[0].qty, 0, 0), []);
    FourthPops(Sell, asks);
    HeapSweepTurn(Sell, AtMarket, h);
    assert HeapTurn(Sell, h).fill.left == 0;
  }

  lemma FirstServed(asks: seq<Order>, index: map<string, Stamp>, id: string, now: Stamp)
    requires |asks| == 4 && AllTied(Sell, asks) && asks[0].qty > 0
    ensures HeapStep(Lazy(Book([], asks), index), Market(id, Buy, asks[0].qty), now).lazy.book.asks
            == [asks[2], asks[1], asks[3]]
  {
    hide HeapSweep, AllTied;
    FirstSwept(asks);
  }

  /** With equal stamps a heap is not a queue: of four asks of one price that read the same time
      the Python engine serves the third right after the first, for any ids and quantities. */
  lemma TiesOvertake(es: seq<Event>, price: int, now: int, id: string, later: int)
    requires |es| == 4 && TiedAsks(es, price, now)
    ensures HeapState(es).book.asks == Placed(es)
    ensures HeapState(es + [Event(Market(id, Buy, es[0].req.qty), later)]).book.asks
            == [Placed(es)[2], Placed(es)[1], Placed(es)[3]]
  {
    hide HeapStep, HeapState, AllTied;
    TiedAsksRest(es, price, now);
    var e := Event(Market(id, Buy, es[0].req.qty), later);
    Fronts(es, e);
    FirstServed(Placed(es), HeapState(es).index, id, Stamp(later, 4));
    StateAfter(es + [e]);
  }

  lemma StateAfter(es: seq<Event>)
    requires es != []
    ensures HeapState(es) == HeapStep(HeapState(Front(es)), Last(es).req, Now(es)).lazy
  {
    hide HeapStep;
  }

  // ---------- A price without a trade ----------

  lemma AloneCancelled(side: Side, o: Order, now: Stamp)
    requires o.qty > 0
    ensures var b := EmptyBook.With(side, [o]);
            && HeapStep(Lazy(b, map[o.id := o.ts]), Cancel(o.id), now).lazy
               == Lazy(EmptyBook.With(side, [o.(qty := 0)]), map[])
            && Step(b, Cancel(o.id), now).book == EmptyBook
  {
    assert Zeroed([o], o.ts) == [o.(qty := 0)];
    assert Zeroed([], o.ts) == [];
    assert [o][0].id == o.id;
    assert Remove([o], o.id) == [];
  }

  lemma GhostAlone(ghostly: Order, bid: int, qty: int)
    requires ghostly.qty == 0 && ghostly.price <= bid && qty > 0
    ensures HeapSweep(Sell, AtLimit(bid), HeapFill(Fill([ghostly], qty, 0, 0), []))
            == HeapFill(Fill([], qty, 0, ghostly.price), [ghostly])
  {
    assert HeapPop(Sell, [ghostly]) == [];
  }

  /** A buyer that finds only a cancelled ask is quoted its price by the Python engine, and
      no price by the reference book, though nothing trades in either. */
  lemma GhostQuoted(a: string, b: string, ask: int, bid: int, qty: int, now: int)
    requires qty > 0 && ask <= bid
    ensures var es := [Event(Limit(a, Sell, ask, qty), now)] + [Event(Cancel(a), now + 1)]
                      + [Event(Limit(b, Buy, bid, qty), now + 2)];
            && HeapAck(es) == Ack(b, Accepted, ask, 0) && SpecAck(es) == Ack(b, Accepted, 0, 0)
  {
    var e, f := Event(Limit(a, Sell, ask, qty), now), Event(Cancel(a), now + 1);
    var g := Event(Limit(b, Buy, bid, qty), now + 2);
    FirstOrder(e);
    Fronts([e], f);
    Fronts([e] + [f], g);
    var o := Order(a, ask, qty, Stamp(now, 0));
    AloneCancelled(Sell, o, Stamp(now + 1, 1));
    GhostAlone(o.(qty := 0), bid, qty);
  }

  // ---------- An id used again ----------

  /** The state after an order has been cancelled and its id used again: a ghost at the
      better price, and a live order, which is the one the dictionary knows. */
  function Reused(id: string, high: int, low: int, qty: int, now: int): Lazy {
    Lazy(Book([Order(id, high, 0, Stamp(now, 0)), Order(id, low, qty, Stamp(now + 2, 2))], []),
         map[id := Stamp(now + 2, 2)])
  }

  /** A history that uses an id again after cancelling it. */
  function ReuseHistory(id: string, high: int, low: int, qty: int, now: int): seq<Event> {
    [Event(Limit(id, Buy, high, qty), now)] + [Event(Cancel(id), now + 1)] + [Event(Limit(id, Buy, low, qty), now + 2)]
  }

  lemma ReuseReached(id: string, high: int, low: int, qty: int, now: int)
    requires qty > 0 && low <= high
    ensures HeapState(ReuseHistory(id, high, low, qty, now)) == Reused(id, high, low, qty, now)
    ensures SpecBook(ReuseHistory(id, high, low, qty, now)) == Book([Order(id, low, qty, Stamp(now + 2, 2))], [])
  {
    hide Step, HeapStep;
    var e, f := Event(Limit(id, Buy, high, qty), now), Event(Cancel(id), now + 1);
    var g := Event(Limit(id, Buy, low, qty), now + 2);
    FirstOrder(e);
    Fronts([e], f);
    Fronts([e] + [f], g);
    AloneCancelled(Buy, Order(id, high, qty, Stamp(now, 0)), Stamp(now + 1, 1));
    ReusePlaced(id, high, low, qty, now);
  }

  lemma ReusePlaced(id: string, high: int, low: int, qty: int, now: int)
    requires qty > 0 && low <= high
    ensures HeapStep(Lazy(Book([Order(id, high, 0, Stamp(now, 0))], []), map[]), Limit(id, Buy, low, qty),
                     Stamp(now + 2, 2)).lazy == Reused(id, high, low, qty, now)
    ensures Step(EmptyBook, Limit(id, Buy, low, qty), Stamp(now + 2, 2)).book
            == Book([Order(id, low, qty, Stamp(now + 2, 2))], [])
  {
    var ghostly, o := Order(id, high, 0, Stamp(now, 0)), Order(id, low, qty, Stamp(now + 2, 2));
    assert Place(Buy, [], o) == [o];
    assert [ghostly] + [o] == [ghostly, o];
    assert HeapPush(Buy, [ghostly], o) == [ghostly, o];
  }

  lemma GhostPopped(g: Order, o: Order)
    requires g.qty == 0 && o.qty > 1
    ensures HeapSweep(Buy, AtMarket, HeapFill(Fill([g, o], 1, 0, 0), []))
            == HeapFill(Fill([o.(qty := o.qty - 1)], 0, 1, o.price), [g])
  {
    var s := [g, o];
    assert [s[1]] + s[1..1] == [o];
    assert HeapPop(Buy, s) == [o];
    assert HeapSweep(Buy, AtMarket, HeapFill(Fill([o], 1, 0, g.price), [g]))
           == HeapFill(Fill([o.(qty := o.qty - 1)], 0, 1, o.price), [g]);
  }

  /** A market order for one share pops the ghost and with it the id. */
  lemma LiveOrderLost(other: string, id: string, high: int, low: int, qty: int, now: int)
    requires qty > 1 && low <= high
    ensures HeapStep(Reused(id, high, low, qty, now), Market(other, Sell, 1), Stamp(now + 3, 3)).lazy
            == Lazy(Book([Order(id, low, qty - 1, Stamp(now + 2, 2))], []), map[])
  {
    var g, o := Order(id, high, 0, Stamp(now, 0)), Order(id, low, qty, Stamp(now + 2, 2));
    GhostPopped(g, o);
    assert [g][0].id == id;
  }

  /** With an id used twice the Python engine loses track of a live order: a trade pops the
      ghost and with it the id, and the order that still rests under it cannot be cancelled.
      The reference book cancels it. */
  lemma ReusedIdCannotBeCancelled(id: string, other: string, high: int, low: int, qty: int, now: int)
    requires qty > 1 && low <= high
    ensures var es := ReuseHistory(id, high, low, qty, now)
                      + [Event(Market(other, Sell, 1), now + 3)] + [Event(Cancel(id), now + 4)];
            && HeapAck(es).status == Rejected && SpecAck(es).status == Cancelled
            && HeapState(es).book.bids == [Order(id, low, qty - 1, Stamp(now + 2, 2))]
  {
    hide HeapStep, Step, ReuseHistory;
    var past := ReuseHistory(id, high, low, qty, now);
    var e, f := Event(Market(other, Sell, 1), now + 3), Event(Cancel(id), now + 4);
    HistoryLength(id, high, low, qty, now);
    Fronts(past, e);
    Fronts(past + [e], f);
    ReuseReached(id, high, low, qty, now);
    LiveOrderLost(other, id, high, low, qty, now);
    var o := Order(id, low, qty, Stamp(now + 2, 2));
    SpecTrades(o, other, Stamp(now + 3, 3));
    Uncancelled(o.(qty := qty - 1), Stamp(now + 4, 4));
  }

  lemma HistoryLength(id: string, high: int, low: int, qty: int, now: int)
    ensures |ReuseHistory(id, high, low, qty, now)| == 3
  {
  }

  lemma Uncancelled(o: Order, now: Stamp)
    ensures HeapStep(Lazy(Book([o], []), map[]), Cancel(o.id), now)
            == LazyOutcome(Lazy(Book([o], []), map[]), CancelAck(o.id, false))
    ensures Step(Book([o], []), Cancel(o.id), now).ack.status == Cancelled
  {
    assert [o][0].id == o.id;
  }

  lemma SpecTrades(o: Order, other: string, now: Stamp)
    requires o.qty > 1
    ensures Step(Book([o], []), Market(other, Sell, 1), now).book == Book([o.(qty := o.qty - 1)], [])
  {
  }

  /** The condition the history breaks: the market order is the one request that is not safe. */
  lemma ReuseIsUnsafe(id: string, other: string, high: int, low: int, qty: int, now: int)
    requires qty > 1 && low <= high
    ensures var past := ReuseHistory(id, high, low, qty, now);
            !Safe(HeapState(past), Market(other, Sell, 1)) && DictExact(HeapState(past))
  {
    hide HeapState, DictExact, Safe, ReuseHistory;
    ReuseReached(id, high, low, qty, now);
    var g, o := Order(id, high, 0, Stamp(now, 0)), Order(id, low, qty, Stamp(now + 2, 2));
    GhostAndLive(g, o);
    PoppingIsUnsafe(g, o, other);
  }

  lemma GhostAndLive(g: Order, o: Order)
    requires g.qty == 0 && o.qty > 0
    ensures DictExact(Lazy(Book([g, o], []), map[o.id := o.ts]))
  {
    var m := Entries(Book([g, o], []));
    assert m == multiset{g, o};
    assert o in m;
  }

  lemma PoppingIsUnsafe(g: Order, o: Order, other: string)
    requires g.qty == 0 && o.qty > 1 && g.id == o.id
    ensures !Safe(Lazy(Book([g, o], []), map[o.id := o.ts]), Market(other, Sell, 1))
  {
    hide HeapSweep, HasId;
    GhostPopped(g, o);
    var left := o.(qty := o.qty - 1);
    assert left in Entries(Book([left], []));
    FirstHasId(g);
  }

  lemma FirstHasId(g: Order)
    ensures HasId([g], g.id)
  {
    assert [g][0].id == g.id;
  }
}
