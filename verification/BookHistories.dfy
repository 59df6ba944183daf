/** What holds of every book the C++ engine can reach, and how the two engines' books compare. */
module BookHistories {
  import opened PriceTimeBook
  import opened TimedQueue
  import opened HeapBook
  import opened HeapSweeps
  import opened LazyCancellation
  import opened PopOrder
  import opened Histories
  import opened HeapHistories
  import opened EngineAgreement
  import Vectors = SortedVectorBook

  // ---------- No book is ever crossed ----------

  lemma SuffixUncrossed(b: Book, resting: Side, rest: seq<Order>)
    requires Uncrossed(b) && SuffixOf(b.Of(resting), rest)
    ensures Uncrossed(b.With(resting, rest))
  {
    SuffixIds(b.Of(resting), rest);
  }

  lemma SuffixOrdered(resting: Side, q: seq<Order>, rest: seq<Order>)
    requires SortedByPrice(resting, q) && NonNegative(q) && SuffixOf(q, rest)
    ensures SortedByPrice(resting, rest) && NonNegative(rest)
  {
    SuffixIds(q, rest);
    var d := |q| - |rest|;
    forall i, j | 0 <= i < j < |rest|
      ensures Rank(resting, rest[i].price) <= Rank(resting, rest[j].price)
    {
      assert Rank(resting, q[d + i].price) <= Rank(resting, q[d + j].price);
    }
    forall i | 0 <= i < |rest|
      ensures rest[i].qty >= 0
    {
      assert q[d + i].qty >= 0;
    }
  }

  /** A taker left wanting has cleared everything at its limit or better, ghosts included. */
  lemma SweepClears(b: Book, side: Side, price: int, qty: int)
    requires Ordered(b)
    ensures var f := Take(b, side, AtLimit(price), qty);
            && SuffixOf(b.Of(Opposite(side)), f.book)
            && (f.left > 0 ==>
                  forall i :: 0 <= i < |f.book| ==> !Crosses(Opposite(side), AtLimit(price), f.book[i].price))
  {
    var resting := Opposite(side);
    var g := Fill(b.Of(resting), qty, 0, 0);
    var n := SweepTakesPrefix(resting, AtLimit(price), g);
    SweepLeavesSuffix(resting, AtLimit(price), g);
    SuffixOrdered(resting, g.book, Sweep(resting, AtLimit(price), g).book);
  }

  lemma InsertedUncrossed(b: Book, side: Side, k: nat, o: Order)
    requires Uncrossed(b) && k <= |b.Of(side)|
    requires forall i :: 0 <= i < |b.Of(Opposite(side))| ==>
               !Crosses(Opposite(side), AtLimit(o.price), b.Of(Opposite(side))[i].price)
    ensures Uncrossed(b.With(side, b.Of(side)[..k] + [o] + b.Of(side)[k..]))
  {
    var s := b.Of(side);
    var r := s[..k] + [o] + s[k..];
    var t := b.Of(Opposite(side));
    forall i, j | 0 <= i < |r| && 0 <= j < |t|
      ensures if side == Buy then r[i].price < t[j].price else t[j].price < r[i].price
    {
      assert r[i] == if i < k then s[i] else if i == k then o else s[i - 1];
      assert !Crosses(Opposite(side), AtLimit(o.price), t[j].price);
    }
  }

  lemma {:induction false} VectorsNeverCross(es: seq<Event>)
    ensures Vectors.ValidVectors(VectorBook(es)) && Ordered(VectorBook(es)) && Uncrossed(VectorBook(es))
  {
    if es != [] {
      VectorsNeverCross(Front(es));
      var b, e := VectorBook(Front(es)), Last(es);
      Vectors.EngineStepKeepsValid(b, e.req, Now(es));
      EngineStepUncrossed(b, e.req, Now(es));
      PriceTimeIsByPrice(Buy, VectorBook(es).bids);
      PriceTimeIsByPrice(Sell, VectorBook(es).asks);
    }
  }

  lemma EngineStepUncrossed(b: Book, r: Request, now: Stamp)
    requires Ordered(b) && Uncrossed(b)
    ensures Uncrossed(Vectors.EngineStep(b, r, now).book)
  {
    match r
    case Limit(id, side, price, qty) =>
      SweepClears(b, side, price, qty);
      var f := Take(b, side, AtLimit(price), qty);
      SuffixUncrossed(b, Opposite(side), f.book);
      if f.left > 0 {
        var o := Order(id, price, f.left, now);
        InsertedUncrossed(b.With(Opposite(side), f.book), side, LowerBound(side, b.Of(side), o), o);
      }
    case Market(id, side, qty) =>
      SweepLeavesSuffix(Opposite(side), AtMarket, Fill(b.Of(Opposite(side)), qty, 0, 0));
      SuffixUncrossed(b, Opposite(side), Take(b, side, AtMarket, qty).book);
    case Cancel(id) =>
      if HasId(b.bids, id) {
        var k := RemoveAt(b.bids, id);
        ErasedUncrossed(b, Buy, k);
      } else if HasId(b.asks, id) {
        var k := RemoveAt(b.asks, id);
        ErasedUncrossed(b, Sell, k);
      }
  }

  lemma ErasedUncrossed(b: Book, side: Side, k: nat)
    requires Uncrossed(b) && k < |b.Of(side)|
    ensures Uncrossed(b.With(side, b.Of(side)[..k] + b.Of(side)[k + 1..]))
  {
    var s := b.Of(side);
    var r := s[..k] + s[k + 1..];
    assert forall i :: 0 <= i < |r| ==> r[i] == s[if i < k then i else i + 1];
  }

  // ---------- Shares are conserved ----------

  /** What a request cancels. */
  function Erased(b: Book, r: Request): int {
    if !r.Cancel? then 0
    else if HasId(b.bids, r.id) then QtyOf(b.bids, r.id)
    else if HasId(b.asks, r.id) then QtyOf(b.asks, r.id)
    else 0
  }

  function VectorLedger(es: seq<Event>): Ledger {
    if es == [] then Ledger(0, 0, 0, 0)
    else Entered(VectorLedger(Front(es)), Last(es).req, VectorAck(es).fillQty,
                 Erased(VectorBook(Front(es)), Last(es).req))
  }

  lemma EngineStepBalances(l: Ledger, b: Book, r: Request, now: Stamp)
    requires Vectors.ValidVectors(b) && Balanced(l, b)
    ensures var o := Vectors.EngineStep(b, r, now); Balanced(Entered(l, r, o.ack.fillQty, Erased(b, r)), o.book)
  {
    match r
    case Limit(id, side, price, qty) =>
      var f := Take(b, side, AtLimit(price), qty);
      SweepBalances(Opposite(side), AtLimit(price), Fill(b.Of(Opposite(side)), qty, 0, 0));
      var o := Order(id, price, f.left, now);
      TotalInserted(b.Of(side), LowerBound(side, b.Of(side), o), o);
    case Market(id, side, qty) =>
      SweepBalances(Opposite(side), AtMarket, Fill(b.Of(Opposite(side)), qty, 0, 0));
    case Cancel(id) =>
      if HasId(b.bids, id) {
        RemoveBalances(b.bids, id);
      } else if HasId(b.asks, id) {
        RemoveBalances(b.asks, id);
      }
  }

  /** In the C++ engine no share is created or lost, whatever ids and clock readings come. */
  lemma {:induction false} VectorsConserve(es: seq<Event>)
    ensures Balanced(VectorLedger(es), VectorBook(es))
  {
    if es != [] {
      VectorsConserve(Front(es));
      VectorsNeverCross(Front(es));
      EngineStepBalances(VectorLedger(Front(es)), VectorBook(Front(es)), Last(es).req, Now(es));
    }
  }

  lemma {:induction false} GhostsWeighNothing(s: seq<Order>)
    requires NonNegative(s)
    ensures Total(LiveOf(s)) == Total(s)
  {
    if s != [] {
      GhostsWeighNothing(s[1..]);
      assert s[0].qty > 0 ==> LiveOf(s)[1..] == LiveOf(s[1..]);
    }
  }

  lemma {:induction false} TakersAgree(es: seq<Event>)
    requires FreshKeys(es) && FreshIds(es)
    ensures var h, v := HeapLedger(es), VectorLedger(es);
            h.submitted == v.submitted && h.takerFilled == v.takerFilled && h.traded == v.traded
  {
    hide HeapStep, LiveOrders, Vectors.EngineStep;
    if es != [] {
      TakersAgree(Front(es));
      EnginesAgree(es);
    }
  }

  lemma LiveTotal(side: Side, h: seq<Order>)
    requires NonNegative(h)
    ensures Total(LiveOf(Unrolled(side, h))) == Total(h)
  {
    hide Unrolled, LiveOf, Total;
    var q := Unrolled(side, h);
    forall i | 0 <= i < |q|
      ensures q[i].qty >= 0
    {
      assert q[i] in multiset(q);
      assert q[i] in multiset(h);
    }
    GhostsWeighNothing(q);
    TotalIsDepth(side, h);
    TotalIsDepth(side, q);
    DepthPermuted(side, AtMarket, h, q);
  }

  /** With fresh ids and keys both engines keep the same books, cancellations included. */
  lemma LedgersAgree(es: seq<Event>)
    requires FreshKeys(es) && FreshIds(es)
    ensures HeapLedger(es) == VectorLedger(es)
  {
    hide Total, LiveOf, Unrolled;
    TakersAgree(es);
    EnginesAgree(es);
    VectorsConserve(es);
    HeapsConserve(es);
    HeapsNeverCross(es);
    LiveTotal(Buy, HeapState(es).book.bids);
    LiveTotal(Sell, HeapState(es).book.asks);
  }

  // ---------- What an acknowledgement means ----------

  lemma TakeHonest(b: Book, side: Side, bound: Bound, qty: int)
    requires Ordered(b)
    ensures var depth := Depth(Opposite(side), bound, b.Of(Opposite(side)));
            var f := Take(b, side, bound, qty);
            0 <= depth && f.filled == Min(Max(qty, 0), depth) && f.left == qty - f.filled
  {
    DepthNonNegative(Opposite(side), bound, b.Of(Opposite(side)));
    SweepFillsDepth(Opposite(side), bound, Fill(b.Of(Opposite(side)), qty, 0, 0));
  }

  /** Every answer, after any history, is honest about the vectors as they were. */
  lemma {:induction false} VectorAcksHonest(es: seq<Event>)
    requires es != []
    ensures var v, r := VectorBook(Front(es)), Last(es).req;
            Honest(v, HasId(v.bids, r.id) || HasId(v.asks, r.id), r, VectorAck(es))
  {
    VectorsNeverCross(Front(es));
    var v := VectorBook(Front(es));
    match Last(es).req
    case Limit(_, side, price, qty) =>
      TakeHonest(v, side, AtLimit(price), qty);
    case Market(_, side, qty) =>
      TakeHonest(v, side, AtMarket, qty);
    case Cancel(_) =>
  }

  // ---------- The bots' priority check ----------

  /** The check fires exactly when a limit order was answered at a price that its limit does not
      admit. */
  lemma PriorityErrorIff(r: Request, a: Ack)
    ensures PriorityError(r, a) <==>
            a.fillPrice > 0 && r.Limit? && !Crosses(Opposite(r.side), AtLimit(r.price), a.fillPrice)
  {
  }

  /** Neither engine is ever charged with a priority error, from any book whatever. */
  lemma NoPriorityError(b: Book, l: Lazy, r: Request, now: Stamp)
    ensures !PriorityError(r, Vectors.EngineStep(b, r, now).ack)
    ensures !PriorityError(r, HeapStep(l, r, now).ack)
  {
    hide HeapSweep, Sweep;
    if r.Limit? {
      var resting := Opposite(r.side);
      SweepPriceAcceptable(resting, AtLimit(r.price), Fill(b.Of(resting), r.qty, 0, 0));
      HeapSweepPrice(resting, AtLimit(r.price), HeapFill(Fill(l.book.Of(resting), r.qty, 0, 0), []));
    }
  }
}
