/** The Python engine on values: its two heaps as lists of orders, each list laid out as heapq
    leaves it, and its dictionary. Whatever the ids and the clock readings, this is what the
    engine does. */
module HeapBook {
  import opened PriceTimeBook
  import opened BookHeap

  /** The two sides, cancelled orders still standing in them with quantity 0, and the
      dictionary with each order named by its stamp. */
  datatype Lazy = Lazy(book: Book, index: map<string, Stamp>)

  datatype LazyOutcome = LazyOutcome(lazy: Lazy, ack: Ack)

  function DropIds<T>(index: map<string, T>, popped: seq<Order>): map<string, T> {
    map id | id in index && !HasId(popped, id) :: index[id]
  }

  function Zeroed(s: seq<Order>, ts: Stamp): (r: seq<Order>)
    ensures |r| == |s|
    ensures forall i :: 0 <= i < |s| ==> r[i] == if s[i].ts == ts then s[i].(qty := 0) else s[i]
  {
    seq(|s|, i requires 0 <= i < |s| => if s[i].ts == ts then s[i].(qty := 0) else s[i])
  }

  /** A sweep of a heap in progress, and the entries it has popped. */
  datatype HeapFill = HeapFill(fill: Fill, popped: seq<Order>)

  /** May the matching loop go round? */
  predicate Goes(resting: Side, bound: Bound, f: Fill) {
    f.left > 0 && f.book != [] && Crosses(resting, bound, f.book[0].price)
  }

  /** The root has nothing left once the taker has traded with it. */
  predicate Spent(f: Fill)
    requires f.book != []
  {
    f.book[0].qty <= f.left
  }

  /** One turn of the loop: the root trades in place, and is popped when nothing is left of it. */
  function HeapTurn(resting: Side, h: HeapFill): (r: HeapFill)
    requires h.fill.book != []
    ensures |r.fill.book| == |h.fill.book| - if Spent(h.fill) then 1 else 0
  {
    var f, best := h.fill, h.fill.book[0];
    var m := Min(f.left, best.qty);
    HeapFill(Fill(if Spent(f) then HeapPop(resting, f.book) else f.book[0 := best.(qty := best.qty - m)],
                  f.left - m, f.filled + m, best.price),
             if Spent(f) then h.popped + [best] else h.popped)
  }

  function HeapSweep(resting: Side, bound: Bound, h: HeapFill): HeapFill
    decreases |h.fill.book|
  {
    if !Goes(resting, bound, h.fill) then h
    else if Spent(h.fill) then HeapSweep(resting, bound, HeapTurn(resting, h))
    else HeapTurn(resting, h)
  }

  lemma HeapSweepTurn(resting: Side, bound: Bound, h: HeapFill)
    requires Goes(resting, bound, h.fill)
    ensures HeapSweep(resting, bound, h) == HeapSweep(resting, bound, HeapTurn(resting, h))
  {
  }

  function HeapTake(b: Book, side: Side, bound: Bound, qty: int): HeapFill {
    HeapSweep(Opposite(side), bound, HeapFill(Fill(b.Of(Opposite(side)), qty, 0, 0), []))
  }

  /** Every entry popped, ghost or not, takes its id out of the dictionary. */
  function HeapSwept(b: Lazy, resting: Side, h: HeapFill): Lazy {
    Lazy(b.book.With(resting, h.fill.book), DropIds(b.index, h.popped))
  }

  function HeapRested(b: Lazy, side: Side, o: Order): Lazy {
    Lazy(b.book.With(side, HeapPush(side, b.book.Of(side), o)), b.index[o.id := o.ts])
  }

  /** Cancellation zeroes the order where it stands, and forgets its id. */
  function CancelStep(b: Lazy, id: string): LazyOutcome {
    if id in b.index then
      LazyOutcome(Lazy(Book(Zeroed(b.book.bids, b.index[id]), Zeroed(b.book.asks, b.index[id])), b.index - {id}),
                  CancelAck(id, true))
    else LazyOutcome(b, CancelAck(id, false))
  }

  function HeapStep(b: Lazy, r: Request, now: Stamp): LazyOutcome {
    match r
    case Limit(id, side, price, qty) =>
      var h := HeapTake(b.book, side, AtLimit(price), qty);
      var swept := HeapSwept(b, Opposite(side), h);
      LazyOutcome(if h.fill.left > 0 then HeapRested(swept, side, Order(id, price, h.fill.left, now)) else swept,
                  LimitAck(id, h.fill))
    case Market(id, side, qty) =>
      var h := HeapTake(b.book, side, AtMarket, qty);
      LazyOutcome(HeapSwept(b, Opposite(side), h), MarketAck(id, h.fill))
    case Cancel(id) => CancelStep(b, id)
  }
}
