/** Request histories, and what each engine, started empty, makes of them. */
module Histories {
  import opened PriceTimeBook
  import opened HeapBook
  import opened LazyQueueBook
  import Vectors = SortedVectorBook

  /** A request and the reading of the clock when it is handled. */
  datatype Event = Event(req: Request, now: int)

  function Front(es: seq<Event>): seq<Event>
    requires es != []
  {
    es[..|es| - 1]
  }

  function Last(es: seq<Event>): Event
    requires es != []
  {
    es[|es| - 1]
  }

  /** The stamp of the last request. */
  function Now(es: seq<Event>): Stamp
    requires es != []
  {
    Stamp(Last(es).now, |es| - 1)
  }

  function SpecBook(es: seq<Event>): Book {
    if es == [] then EmptyBook else Step(SpecBook(Front(es)), Last(es).req, Now(es)).book
  }

  function SpecAck(es: seq<Event>): Ack
    requires es != []
  {
    Step(SpecBook(Front(es)), Last(es).req, Now(es)).ack
  }

  function VectorBook(es: seq<Event>): Book {
    if es == [] then EmptyBook else Vectors.EngineStep(VectorBook(Front(es)), Last(es).req, Now(es)).book
  }

  function VectorAck(es: seq<Event>): Ack
    requires es != []
  {
    Vectors.EngineStep(VectorBook(Front(es)), Last(es).req, Now(es)).ack
  }

  function HeapState(es: seq<Event>): Lazy {
    if es == [] then Lazy(EmptyBook, map[]) else HeapStep(HeapState(Front(es)), Last(es).req, Now(es)).lazy
  }

  function HeapAck(es: seq<Event>): Ack
    requires es != []
  {
    HeapStep(HeapState(Front(es)), Last(es).req, Now(es)).ack
  }

  function QueueState(es: seq<Event>): Lazy {
    if es == [] then Lazy(EmptyBook, map[]) else LazyStep(QueueState(Front(es)), Last(es).req, Now(es)).lazy
  }

  function QueueAck(es: seq<Event>): Ack
    requires es != []
  {
    LazyStep(QueueState(Front(es)), Last(es).req, Now(es)).ack
  }

  /** The clock ticks between any two requests. */
  predicate Clocked(es: seq<Event>) {
    forall i, j :: 0 <= i < j < |es| ==> es[i].now < es[j].now
  }

  /** No two limit orders carry the same id. */
  predicate FreshIds(es: seq<Event>) {
    forall i, j :: 0 <= i < j < |es| && es[i].req.Limit? && es[j].req.Limit? ==> es[i].req.id != es[j].req.id
  }

  /** Limit orders that queue at one price of one side. */
  predicate QueueTogether(r: Request, t: Request) {
    r.Limit? && t.Limit? && r.side == t.side && r.price == t.price
  }

  /** No two limit orders of one side and price read the same time, be it earlier or later. */
  predicate FreshKeys(es: seq<Event>) {
    forall i, j :: 0 <= i < j < |es| && QueueTogether(es[i].req, es[j].req) ==> es[i].now != es[j].now
  }

  // ---------- What is to hold of them ----------

  predicate Uncrossed(b: Book) {
    forall i, j :: 0 <= i < |b.bids| && 0 <= j < |b.asks| ==> b.bids[i].price < b.asks[j].price
  }

  /** Running totals: quantity submitted in limit orders, received by limit takers, traded
      away by resting orders, and cancelled. */
  datatype Ledger = Ledger(submitted: int, takerFilled: int, traded: int, cancelled: int)

  function Entered(l: Ledger, r: Request, fillQty: int, cancelled: int): Ledger {
    match r
    case Limit(_, _, _, qty) =>
      l.(submitted := l.submitted + Max(qty, 0), takerFilled := l.takerFilled + fillQty, traded := l.traded + fillQty)
    case Market(_, _, _) => l.(traded := l.traded + fillQty)
    case Cancel(_) => l.(cancelled := l.cancelled + cancelled)
  }

  function Resting(b: Book): int {
    Total(b.bids) + Total(b.asks)
  }

  predicate Balanced(l: Ledger, b: Book) {
    l.submitted == l.takerFilled + l.traded + l.cancelled + Resting(b)
  }

  /** The taker got the smaller of what it wanted and what rested at acceptable prices, and the
      status says so: a limit order is filled in full, in part or not at all, while a market
      order is called filled even if it got less than it wanted. */
  predicate Honest(b: Book, found: bool, r: Request, a: Ack) {
    a.id == r.id &&
    match r
    case Limit(_, side, price, qty) =>
      var depth := Depth(Opposite(side), AtLimit(price), b.Of(Opposite(side)));
      && a.fillQty == Min(Max(qty, 0), depth)
      && (a.status == Filled <==> 0 < qty <= depth)
      && (a.status == Partial <==> 0 < depth < qty)
      && (a.status == Accepted <==> qty <= 0 || depth == 0)
    case Market(_, side, qty) =>
      var depth := Depth(Opposite(side), AtMarket, b.Of(Opposite(side)));
      && a.fillQty == Min(Max(qty, 0), depth)
      && (a.status == Filled <==> 0 < qty && 0 < depth)
      && (a.status == Rejected <==> qty <= 0 || depth == 0)
    case Cancel(_) =>
      a.fillQty == 0 && a.fillPrice == 0 && a.status == if found then Cancelled else Rejected
  }

  /** The check a bot makes on the answer to its order. */
  predicate PriorityError(r: Request, a: Ack) {
    a.fillPrice > 0 && r.Limit? && if r.side == Buy then a.fillPrice > r.price else a.fillPrice < r.price
  }
}
