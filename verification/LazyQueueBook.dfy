/** The Python engine seen as two queues by price and time, cancelled orders still standing in
    them. It is what the heaps amount to as long as no two entries of a side share price and
    time. */
module LazyQueueBook {
  import opened PriceTimeBook
  import opened TimedQueue
  import opened HeapBook

  /** Every entry a sweep pops, ghost or not, takes its id out of the dictionary. */
  function Swept(b: Lazy, resting: Side, f: Fill): Lazy {
    var q := b.book.Of(resting);
    Lazy(b.book.With(resting, f.book),
         if |f.book| <= |q| then DropIds(b.index, q[..|q| - |f.book|]) else b.index)
  }

  function Rested(b: Lazy, side: Side, o: Order): Lazy {
    Lazy(b.book.With(side, Inserted(side, b.book.Of(side), o)), b.index[o.id := o.ts])
  }

  function LazyStep(b: Lazy, r: Request, now: Stamp): LazyOutcome {
    match r
    case Limit(id, side, price, qty) =>
      var f := Take(b.book, side, AtLimit(price), qty);
      var swept := Swept(b, Opposite(side), f);
      LazyOutcome(if f.left > 0 then Rested(swept, side, Order(id, price, f.left, now)) else swept,
                  LimitAck(id, f))
    case Market(id, side, qty) =>
      var f := Take(b.book, side, AtMarket, qty);
      LazyOutcome(Swept(b, Opposite(side), f), MarketAck(id, f))
    case Cancel(id) => CancelStep(b, id)
  }
}
