/** The C++ engine: two vectors kept sorted by (price, time), new orders inserted by binary
    search, cancelled orders erased at once. */
module SortedVectorBook {
  import opened PriceTimeBook
  import opened TimedQueue

  /** One request against the vectors: as on the reference book, but for the insertion. */
  function EngineStep(b: Book, r: Request, now: Stamp): Outcome {
    match r
    case Limit(id, side, price, qty) =>
      var f := Take(b, side, AtLimit(price), qty);
      var swept := b.With(Opposite(side), f.book);
      var rested := if f.left > 0
                    then swept.With(side, Inserted(side, b.Of(side), Order(id, price, f.left, now)))
                    else swept;
      Outcome(rested, LimitAck(id, f))
    case _ => Step(b, r, now)
  }

  predicate ValidVectors(b: Book) {
    && SortedByPriceTime(Buy, b.bids) && AllLive(b.bids)
    && SortedByPriceTime(Sell, b.asks) && AllLive(b.asks)
  }

  class OrderBook {
    var bids: seq<Order>
    var asks: seq<Order>

    ghost function View(): Book
      reads this
    {
      Book(bids, asks)
    }

    ghost predicate Valid()
      reads this
    {
      ValidVectors(View())
    }

    constructor ()
      ensures Valid() && View() == EmptyBook
    {
      bids, asks := [], [];
    }

    /** The matching loop of do_limit and do_market. */
    method Match(resting: Side, bound: Bound, qty: int) returns (ghost f: Fill, left: int, filled: int, fp: int)
      modifies this
      ensures f == Sweep(resting, bound, Fill(old(View()).Of(resting), qty, 0, 0))
      ensures View() == old(View()).With(resting, f.book)
      ensures left == f.left && filled == f.filled && fp == f.price
    {
      left, filled, fp := qty, 0, 0;
      var book := if resting == Buy then bids else asks;
      f := Sweep(resting, bound, Fill(book, qty, 0, 0));
      while left > 0 && book != [] && Crosses(resting, bound, book[0].price)
        invariant View() == old(View()).With(resting, book)
        invariant Sweep(resting, bound, Fill(book, left, filled, fp)) == f
        decreases |book|, left
      {
        var top := book[0];
        var m := Min(left, top.qty);
        fp, filled, left := top.price, filled + m, left - m;
        top := top.(qty := top.qty - m);
        book := if top.qty == 0 then book[1..] else [top] + book[1..];
        if resting == Buy {
          bids := book;
        } else {
          asks := book;
        }
      }
    }

    /** Inserts by the binary search of lower_bound. */
    static method InsertSorted(resting: Side, book: seq<Order>, o: Order) returns (r: seq<Order>)
      requires SortedByPriceTime(resting, book)
      ensures r == Inserted(resting, book, o)
    {
      var first, len := 0, |book|;
      while len > 0
        invariant 0 <= first && 0 <= len && first + len <= |book|
        invariant forall i :: 0 <= i < first ==> Before(resting, book[i], o)
        invariant forall i :: first + len <= i < |book| ==> !Before(resting, book[i], o)
      {
        var half := len / 2;
        var mid := first + half;
        if Before(resting, book[mid], o) {
          first, len := mid + 1, len - half - 1;
        } else {
          len := half;
        }
      }
      r := book[..first] + [o] + book[first..];
    }

    method DoLimit(id: string, side: Side, price: int, qty: int, now: Stamp) returns (ack: Ack)
      requires Valid()
      modifies this
      ensures Valid()
      ensures Outcome(View(), ack) == EngineStep(old(View()), Limit(id, side, price, qty), now)
    {
      EngineStepKeepsValid(View(), Limit(id, side, price, qty), now);
      var f, left, filled, fp := Match(Opposite(side), AtLimit(price), qty);
      if left > 0 {
        if side == Buy {
          bids := InsertSorted(side, bids, Order(id, price, left, now));
        } else {
          asks := InsertSorted(side, asks, Order(id, price, left, now));
        }
      }
      ack := Ack(id,
                 if filled > 0 && left == 0 then Filled else if filled > 0 then Partial else Accepted,
                 fp, filled);
    }

    method DoMarket(id: string, side: Side, qty: int, ghost now: Stamp) returns (ack: Ack)
      requires Valid()
      modifies this
      ensures Valid()
      ensures Outcome(View(), ack) == EngineStep(old(View()), Market(id, side, qty), now)
    {
      EngineStepKeepsValid(View(), Market(id, side, qty), now);
      var f, left, filled, fp := Match(Opposite(side), AtMarket, qty);
      ack := Ack(id, if filled > 0 then Filled else Rejected, fp, filled);
    }

    /** The linear scan of do_cancel. */
    static method EraseFrom(book: seq<Order>, id: string) returns (erased: bool, r: seq<Order>)
      ensures erased == HasId(book, id)
      ensures r == Remove(book, id)
      ensures !erased ==> r == book
    {
      var i := 0;
      while i < |book| && book[i].id != id
        invariant 0 <= i <= |book|
        invariant forall j :: 0 <= j < i ==> book[j].id != id
        invariant Remove(book, id) == book[..i] + Remove(book[i..], id)
      {
        i := i + 1;
      }
      erased := i < |book|;
      r := if erased then book[..i] + book[i + 1..] else book;
    }

    method DoCancel(id: string, ghost now: Stamp) returns (ack: Ack)
      requires Valid()
      modifies this
      ensures Valid()
      ensures Outcome(View(), ack) == EngineStep(old(View()), Cancel(id), now)
    {
      EngineStepKeepsValid(View(), Cancel(id), now);
      var found;
      found, bids := EraseFrom(bids, id);
      if !found {
        found, asks := EraseFrom(asks, id);
      }
      ack := Ack(id, if found then Cancelled else Rejected, 0, 0);
    }

    method Process(r: Request, now: Stamp) returns (ack: Ack)
      requires Valid()
      modifies this
      ensures Valid()
      ensures Outcome(View(), ack) == EngineStep(old(View()), r, now)
    {
      match r
      case Cancel(id) => ack := DoCancel(id, now);
      case Market(id, side, qty) => ack := DoMarket(id, side, qty, now);
      case Limit(id, side, price, qty) => ack := DoLimit(id, side, price, qty, now);
    }
  }

  // ---------- The vectors stay sorted and live, whatever the clock does ----------

  lemma RemoveKeepsVector(resting: Side, s: seq<Order>, id: string)
    requires SortedByPriceTime(resting, s) && AllLive(s) && HasId(s, id)
    ensures SortedByPriceTime(resting, Remove(s, id)) && AllLive(Remove(s, id))
  {
    var k := RemoveAt(s, id);
    ErasedKeepsVector(resting, s, k);
  }

  lemma ErasedKeepsVector(resting: Side, s: seq<Order>, k: nat)
    requires SortedByPriceTime(resting, s) && AllLive(s) && k < |s|
    ensures SortedByPriceTime(resting, s[..k] + s[k + 1..]) && AllLive(s[..k] + s[k + 1..])
  {
    var r := s[..k] + s[k + 1..];
    assert forall i :: 0 <= i < |r| ==> r[i] == s[if i < k then i else i + 1];
  }

  lemma TakeKeepsValid(b: Book, side: Side, bound: Bound, qty: int)
    requires ValidVectors(b)
    ensures ValidVectors(b.With(Opposite(side), Take(b, side, bound, qty).book))
  {
    var f := Fill(b.Of(Opposite(side)), qty, 0, 0);
    SweepLeavesSuffix(Opposite(side), bound, f);
    SuffixStaysTimed(Opposite(side), f.book, Sweep(Opposite(side), bound, f).book);
  }

  lemma EngineStepKeepsValid(b: Book, r: Request, now: Stamp)
    requires ValidVectors(b)
    ensures ValidVectors(EngineStep(b, r, now).book)
  {
    match r
    case Limit(id, side, price, qty) =>
      TakeKeepsValid(b, side, AtLimit(price), qty);
      InsertedAround(side, b.Of(side), Order(id, price, Take(b, side, AtLimit(price), qty).left, now));
    case Market(id, side, qty) =>
      TakeKeepsValid(b, side, AtMarket, qty);
    case Cancel(id) =>
      if HasId(b.bids, id) {
        RemoveKeepsVector(Buy, b.bids, id);
      } else if HasId(b.asks, id) {
        RemoveKeepsVector(Sell, b.asks, id);
      }
  }
}
