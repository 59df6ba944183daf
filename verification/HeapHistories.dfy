/** What holds of every state the Python engine can reach, whatever the ids, whatever the clock. */
module HeapHistories {
  import opened PriceTimeBook
  import opened BookHeap
  import opened HeapBook
  import opened HeapSweeps
  import opened Histories

  // ---------- Both heaps stay heaps ----------

  predicate HeapsSound(b: Book) {
    IsHeap(Buy, b.bids) && NonNegative(b.bids) && IsHeap(Sell, b.asks) && NonNegative(b.asks)
  }

  lemma TakenSound(b: Book, side: Side, bound: Bound, qty: int)
    requires HeapsSound(b)
    ensures HeapsSound(b.With(Opposite(side), HeapTake(b, side, bound, qty).fill.book))
  {
    HeapSweepKeeps(Opposite(side), bound, HeapFill(Fill(b.Of(Opposite(side)), qty, 0, 0), []));
  }

  lemma PushedMembers(side: Side, h: seq<Order>, o: Order)
    ensures forall i :: 0 <= i < |HeapPush(side, h, o)| ==> HeapPush(side, h, o)[i] == o || HeapPush(side, h, o)[i] in h
  {
    hide HeapPush;
    var r := HeapPush(side, h, o);
    forall i | 0 <= i < |r|
      ensures r[i] == o || r[i] in h
    {
      assert r[i] in multiset(r);
    }
  }

  lemma PushedSound(b: Book, side: Side, o: Order)
    requires HeapsSound(b) && o.qty >= 0
    ensures HeapsSound(b.With(side, HeapPush(side, b.Of(side), o)))
  {
    hide HeapPush, IsHeap;
    PushKeepsHeap(side, b.Of(side), o);
    PushedMembers(side, b.Of(side), o);
  }

  lemma ZeroedSound(side: Side, h: seq<Order>, ts: Stamp)
    requires IsHeap(side, h) && NonNegative(h)
    ensures IsHeap(side, Zeroed(h, ts)) && NonNegative(Zeroed(h, ts))
  {
    var z := Zeroed(h, ts);
    forall i | 0 < i < |z|
      ensures InOrder(side, z, i)
    {
      assert InOrder(side, h, i);
    }
  }

  lemma HeapStepSound(b: Lazy, r: Request, now: Stamp)
    requires HeapsSound(b.book)
    ensures HeapsSound(HeapStep(b, r, now).lazy.book)
  {
    hide IsHeap, HeapTake, HeapPush, Zeroed;
    match r
    case Limit(id, side, price, qty) =>
      TakenSound(b.book, side, AtLimit(price), qty);
      var h := HeapTake(b.book, side, AtLimit(price), qty);
      if h.fill.left > 0 {
        PushedSound(b.book.With(Opposite(side), h.fill.book), side, Order(id, price, h.fill.left, now));
      }
    case Market(id, side, qty) =>
      TakenSound(b.book, side, AtMarket, qty);
    case Cancel(id) =>
      if id in b.index {
        ZeroedSound(Buy, b.book.bids, b.index[id]);
        ZeroedSound(Sell, b.book.asks, b.index[id]);
      }
  }

  // ---------- No book is ever crossed ----------

  /** Every entry of r is one of s but for its quantity. */
  predicate From(r: seq<Order>, s: seq<Order>) {
    forall i :: 0 <= i < |r| ==> Stems(r[i], s)
  }

  predicate Stems(o: Order, s: seq<Order>) {
    exists j :: 0 <= j < |s| && o == s[j].(qty := o.qty)
  }

  lemma TakenFrom(b: Book, side: Side, bound: Bound, qty: int)
    ensures From(HeapTake(b, side, bound, qty).fill.book, b.Of(Opposite(side)))
  {
    hide HeapSweep;
    var s := b.Of(Opposite(side));
    var h := HeapFill(Fill(s, qty, 0, 0), []);
    var rest := SweepSplits(Opposite(side), bound, h);
    var r := HeapSweep(Opposite(side), bound, h).fill.book;
    forall i | 0 <= i < |r|
      ensures Stems(r[i], s)
    {
      assert rest[i] in multiset(s);
      var j :| 0 <= j < |s| && s[j] == rest[i];
      assert r[i] == s[j].(qty := r[i].qty);
    }
  }

  lemma FromUncrossed(b: Book, resting: Side, r: seq<Order>)
    requires Uncrossed(b) && From(r, b.Of(resting))
    ensures Uncrossed(b.With(resting, r))
  {
    forall i | 0 <= i < |r|
      ensures exists j :: 0 <= j < |b.Of(resting)| && r[i].price == b.Of(resting)[j].price
    {
      assert Stems(r[i], b.Of(resting));
    }
  }

  lemma PushedUncrossed(b: Book, side: Side, o: Order)
    requires Uncrossed(b)
    requires forall i :: 0 <= i < |b.Of(Opposite(side))| ==>
               !Crosses(Opposite(side), AtLimit(o.price), b.Of(Opposite(side))[i].price)
    ensures Uncrossed(b.With(side, HeapPush(side, b.Of(side), o)))
  {
    hide HeapPush;
    PushedMembers(side, b.Of(side), o);
    var r, t := HeapPush(side, b.Of(side), o), b.Of(Opposite(side));
    forall i, j | 0 <= i < |r| && 0 <= j < |t|
      ensures if side == Buy then r[i].price < t[j].price else t[j].price < r[i].price
    {
      assert r[i] == o || r[i] in b.Of(side);
      assert !Crosses(Opposite(side), AtLimit(o.price), t[j].price);
    }
  }

  /** A taker left wanting has cleared everything at its limit or better, ghosts included. */
  lemma TakenClears(b: Book, side: Side, price: int, qty: int)
    requires HeapsSound(b)
    ensures var f := HeapTake(b, side, AtLimit(price), qty).fill;
            f.left > 0 ==> forall i :: 0 <= i < |f.book| ==> !Crosses(Opposite(side), AtLimit(price), f.book[i].price)
  {
    HeapSweepClears(Opposite(side), AtLimit(price), HeapFill(Fill(b.Of(Opposite(side)), qty, 0, 0), []));
  }

  lemma HeapStepUncrossed(b: Lazy, r: Request, now: Stamp)
    requires HeapsSound(b.book) && Uncrossed(b.book)
    ensures Uncrossed(HeapStep(b, r, now).lazy.book)
  {
    hide IsHeap, HeapTake, HeapPush;
    match r
    case Limit(id, side, price, qty) =>
      TakenFrom(b.book, side, AtLimit(price), qty);
      var h := HeapTake(b.book, side, AtLimit(price), qty);
      var swept := b.book.With(Opposite(side), h.fill.book);
      FromUncrossed(b.book, Opposite(side), h.fill.book);
      if h.fill.left > 0 {
        TakenClears(b.book, side, price, qty);
        assert swept.Of(Opposite(side)) == h.fill.book;
        PushedUncrossed(swept, side, Order(id, price, h.fill.left, now));
      }
    case Market(id, side, qty) =>
      TakenFrom(b.book, side, AtMarket, qty);
      FromUncrossed(b.book, Opposite(side), HeapTake(b.book, side, AtMarket, qty).fill.book);
    case Cancel(id) =>
  }

  /** Over any history both heaps stay ordered, and every bid price, even that of a ghost, is
      below every ask price. */
  lemma {:induction false} HeapsNeverCross(es: seq<Event>)
    ensures HeapsSound(HeapState(es).book) && Uncrossed(HeapState(es).book)
  {
    hide HeapsSound, HeapStep;
    if es == [] {
      EmptySound();
    } else {
      HeapsNeverCross(Front(es));
      HeapStepSound(HeapState(Front(es)), Last(es).req, Now(es));
      HeapStepUncrossed(HeapState(Front(es)), Last(es).req, Now(es));
    }
  }

  lemma EmptySound()
    ensures HeapsSound(EmptyBook)
  {
  }

  // ---------- Shares are conserved ----------

  function StampedQty(s: seq<Order>, ts: Stamp): int {
    if s == [] then 0 else (if s[0].ts == ts then s[0].qty else 0) + StampedQty(s[1..], ts)
  }

  /** What a request cancels: the quantity left of the order the dictionary names. */
  function Forgotten(b: Lazy, r: Request): int {
    if r.Cancel? && r.id in b.index
    then StampedQty(b.book.bids, b.index[r.id]) + StampedQty(b.book.asks, b.index[r.id])
    else 0
  }

  function HeapLedger(es: seq<Event>): Ledger {
    if es == [] then Ledger(0, 0, 0, 0)
    else Entered(HeapLedger(Front(es)), Last(es).req, HeapAck(es).fillQty,
                 Forgotten(HeapState(Front(es)), Last(es).req))
  }

  lemma {:induction false} ZeroedWeighs(s: seq<Order>, ts: Stamp)
    ensures Total(Zeroed(s, ts)) == Total(s) - StampedQty(s, ts)
  {
    if s != [] {
      ZeroedWeighs(s[1..], ts);
      assert Zeroed(s, ts)[1..] == Zeroed(s[1..], ts);
    }
  }

  lemma TakenBalances(b: Book, side: Side, bound: Bound, qty: int)
    requires NonNegative(b.Of(Opposite(side)))
    ensures var f := HeapTake(b, side, bound, qty).fill;
            && Total(f.book) + f.filled == Total(b.Of(Opposite(side))) && f.filled + f.left == qty
            && 0 <= f.filled && (qty > 0 ==> f.left >= 0) && (qty <= 0 ==> f.left == qty)
  {
    hide HeapSweep;
    var h := HeapFill(Fill(b.Of(Opposite(side)), qty, 0, 0), []);
    HeapSweepBalances(Opposite(side), bound, AtMarket, h);
    HeapSweepGives(Opposite(side), bound, h);
    TotalIsDepth(Opposite(side), h.fill.book);
    TotalIsDepth(Opposite(side), HeapSweep(Opposite(side), bound, h).fill.book);
  }

  lemma PushedTotal(side: Side, h: seq<Order>, o: Order)
    ensures Total(HeapPush(side, h, o)) == Total(h) + o.qty
  {
    hide HeapPush;
    var r := HeapPush(side, h, o);
    DepthJoined(side, AtMarket, h, r, o);
    TotalIsDepth(side, h);
    TotalIsDepth(side, r);
  }

  lemma HeapStepBalances(l: Ledger, b: Lazy, r: Request, now: Stamp)
    requires HeapsSound(b.book) && Balanced(l, b.book)
    ensures var o := HeapStep(b, r, now); Balanced(Entered(l, r, o.ack.fillQty, Forgotten(b, r)), o.lazy.book)
  {
    hide IsHeap, HeapTake, HeapPush, Total, StampedQty;
    match r
    case Limit(id, side, price, qty) =>
      var f := HeapTake(b.book, side, AtLimit(price), qty).fill;
      TakenBalances(b.book, side, AtLimit(price), qty);
      PushedTotal(side, b.book.Of(side), Order(id, price, f.left, now));
    case Market(id, side, qty) =>
      TakenBalances(b.book, side, AtMarket, qty);
    case Cancel(id) =>
      if id in b.index {
        ZeroedWeighs(b.book.bids, b.index[id]);
        ZeroedWeighs(b.book.asks, b.index[id]);
      }
  }

  /** Over any history no share is created or lost. */
  lemma {:induction false} HeapsConserve(es: seq<Event>)
    ensures Balanced(HeapLedger(es), HeapState(es).book)
  {
    hide HeapsSound, HeapStep;
    if es != [] {
      HeapsConserve(Front(es));
      HeapsNeverCross(Front(es));
      HeapStepBalances(HeapLedger(Front(es)), HeapState(Front(es)), Last(es).req, Now(es));
    }
  }

  // ---------- Acknowledgements ----------

  lemma HeapStepHonest(b: Lazy, r: Request, now: Stamp)
    requires HeapsSound(b.book)
    ensures Honest(b.book, r.id in b.index, r, HeapStep(b, r, now).ack)
  {
    hide IsHeap, HeapSweep, HeapPush, Depth;
    match r
    case Limit(_, side, price, qty) =>
      HeapSweepFills(Opposite(side), AtLimit(price), HeapFill(Fill(b.book.Of(Opposite(side)), qty, 0, 0), []));
      DepthNonNegative(Opposite(side), AtLimit(price), b.book.Of(Opposite(side)));
    case Market(_, side, qty) =>
      HeapSweepFills(Opposite(side), AtMarket, HeapFill(Fill(b.book.Of(Opposite(side)), qty, 0, 0), []));
      DepthNonNegative(Opposite(side), AtMarket, b.book.Of(Opposite(side)));
    case Cancel(_) =>
  }

  /** Every answer, after any history, is honest about the heaps as they were. */
  lemma {:induction false} HeapAcksHonest(es: seq<Event>)
    requires es != []
    ensures var b, r := HeapState(Front(es)), Last(es).req; Honest(b.book, r.id in b.index, r, HeapAck(es))
  {
    hide HeapsSound, HeapStep, Honest;
    HeapsNeverCross(Front(es));
    HeapStepHonest(HeapState(Front(es)), Last(es).req, Now(es));
  }
}
