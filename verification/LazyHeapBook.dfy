/** The Python engine: two binary heaps of shared order objects, a dictionary from ids to
    those objects, and cancellation that only zeroes an order and forgets its id. */
module LazyHeapBook {
  import opened PriceTimeBook
  import opened TimedQueue
  import opened BookHeap
  import opened HeapBook
  import opened Histories
  import opened HeapHistories

  class BookOrder {
    const priorityPrice: int
    const timestamp: int
    const orderId: string
    const side: Side
    const price: int
    var remaining: int
    ghost const no: nat   // the number of the request that placed it

    constructor (priorityPrice: int, timestamp: int, orderId: string, side: Side, price: int, remaining: int,
                 ghost no: nat)
      ensures this.priorityPrice == priorityPrice && this.timestamp == timestamp && this.orderId == orderId
      ensures this.side == side && this.price == price && this.remaining == remaining && this.no == no
    {
      this.priorityPrice, this.timestamp, this.orderId := priorityPrice, timestamp, orderId;
      this.side, this.price, this.remaining, this.no := side, price, remaining, no;
    }
  }

  /** The generated ordering of the dataclass: priority price, then time. */
  predicate Less(a: BookOrder, b: BookOrder) {
    a.priorityPrice < b.priorityPrice || (a.priorityPrice == b.priorityPrice && a.timestamp < b.timestamp)
  }

  // ---------- What the objects stand for ----------

  ghost function StampOf(o: BookOrder): Stamp {
    Stamp(o.timestamp, o.no)
  }

  ghost function Val(o: BookOrder): Order
    reads o
  {
    Order(o.orderId, o.price, o.remaining, StampOf(o))
  }

  ghost function Vals(h: seq<BookOrder>): (s: seq<Order>)
    reads h
    ensures |s| == |h| && forall i :: 0 <= i < |h| ==> s[i] == Val(h[i])
  {
    seq(|h|, i requires 0 <= i < |h| reads h => Val(h[i]))
  }

  ghost function IndexOf(orders: map<string, BookOrder>): map<string, Stamp> {
    map id | id in orders :: StampOf(orders[id])
  }

  /** Orders of one side, ranked as the heap compares them. */
  predicate Ranked(side: Side, h: seq<BookOrder>) {
    forall i :: 0 <= i < |h| ==> h[i].side == side && h[i].priorityPrice == Rank(side, h[i].price)
  }

  lemma LessIsBefore(side: Side, h: seq<BookOrder>, i: nat, j: nat)
    requires Ranked(side, h) && i < |h| && j < |h|
    ensures Less(h[i], h[j]) <==> Before(side, Vals(h)[i], Vals(h)[j])
  {
  }

  // ---------- heapq ----------

  function Exchanged(h: seq<BookOrder>, i: nat, j: nat): (r: seq<BookOrder>)
    requires i < |h| && j < |h|
    ensures |r| == |h| && multiset(r) == multiset(h)
  {
    h[i := h[j]][j := h[i]]
  }

  lemma ExchangedVals(side: Side, h: seq<BookOrder>, i: nat, j: nat)
    requires Ranked(side, h) && i < |h| && j < |h|
    ensures Ranked(side, Exchanged(h, i, j)) && Vals(Exchanged(h, i, j)) == Swap(Vals(h), i, j)
  {
  }

  /** `_siftdown` */
  method SiftDown(ghost side: Side, heap: seq<BookOrder>, start: nat) returns (h: seq<BookOrder>)
    requires Ranked(side, heap) && start < |heap|
    ensures Ranked(side, h) && multiset(h) == multiset(heap)
    ensures Vals(h) == BubbleUp(side, Vals(heap), start)
  {
    h := heap;
    var pos: nat := start;
    while pos > 0 && Less(h[pos], h[Parent(pos)])
      invariant pos < |h| == |heap| && Ranked(side, h) && multiset(h) == multiset(heap)
      invariant BubbleUp(side, Vals(h), pos) == BubbleUp(side, Vals(heap), start)
    {
      LessIsBefore(side, h, pos, Parent(pos));
      ExchangedVals(side, h, pos, Parent(pos));
      h, pos := Exchanged(h, pos, Parent(pos)), Parent(pos);
    }
    if pos > 0 {
      LessIsBefore(side, h, pos, Parent(pos));
    }
  }

  method ChildToLift(ghost side: Side, h: seq<BookOrder>, pos: nat) returns (child: nat)
    requires Ranked(side, h) && 2 * pos + 1 < |h|
    ensures child == SmallerChild(side, Vals(h), pos)
  {
    child := 2 * pos + 1;
    if child + 1 < |h| {
      LessIsBefore(side, h, child, child + 1);
      if !Less(h[child], h[child + 1]) {
        child := child + 1;
      }
    }
  }

  /** The descent of `_siftup` to a leaf. */
  method Sink(ghost side: Side, heap: seq<BookOrder>) returns (h: seq<BookOrder>, pos: nat)
    requires Ranked(side, heap) && heap != []
    ensures Ranked(side, h) && multiset(h) == multiset(heap) && pos < |h| == |heap|
    ensures Sunk(Vals(h), pos) == SinkToLeaf(side, Vals(heap), 0)
  {
    hide Vals, Exchanged, Swap, SmallerChild, Ranked;
    h, pos := heap, 0;
    while 2 * pos + 1 < |h|
      invariant pos < |h| == |heap| && Ranked(side, h) && multiset(h) == multiset(heap)
      invariant SinkToLeaf(side, Vals(h), pos) == SinkToLeaf(side, Vals(heap), 0)
      decreases |h| - pos
    {
      var child := ChildToLift(side, h, pos);
      ExchangedVals(side, h, pos, child);
      h, pos := Exchanged(h, pos, child), child;
    }
  }

  method HeapPushed(ghost side: Side, heap: seq<BookOrder>, o: BookOrder) returns (h: seq<BookOrder>)
    requires Ranked(side, heap) && o.side == side && o.priorityPrice == Rank(side, o.price)
    ensures Ranked(side, h) && multiset(h) == multiset(heap) + multiset{o}
    ensures Vals(h) == HeapPush(side, Vals(heap), Val(o))
  {
    assert Vals(heap + [o]) == Vals(heap) + [Val(o)];
    h := SiftDown(side, heap + [o], |heap|);
  }

  /** The last entry in place of the first, as heappop begins. */
  function LastFirst(h: seq<BookOrder>): seq<BookOrder>
    requires |h| > 1
  {
    [h[|h| - 1]] + h[1..|h| - 1]
  }

  lemma LastFirstVals(side: Side, h: seq<BookOrder>)
    requires |h| > 1 && Ranked(side, h)
    ensures Vals(LastFirst(h)) == [Vals(h)[|h| - 1]] + Vals(h)[1..|h| - 1]
    ensures Ranked(side, LastFirst(h)) && |LastFirst(h)| == |h| - 1
  {
  }

  lemma LastFirstEntries(h: seq<BookOrder>)
    requires |h| > 1
    ensures multiset(h) == multiset(LastFirst(h)) + multiset{h[0]}
  {
    assert h == [h[0]] + h[1..|h| - 1] + [h[|h| - 1]];
  }

  method HeapPopped(ghost side: Side, heap: seq<BookOrder>) returns (h: seq<BookOrder>)
    requires Ranked(side, heap) && heap != []
    ensures Ranked(side, h) && multiset(heap) == multiset(h) + multiset{heap[0]}
    ensures Vals(h) == HeapPop(side, Vals(heap))
  {
    if |heap| == 1 {
      assert heap == [heap[0]];
      h := [];
    } else {
      h := Refilled(side, heap);
    }
  }

  /** heappop of more than one entry: the last goes to the root, down to a leaf, and up again. */
  method Refilled(ghost side: Side, heap: seq<BookOrder>) returns (h: seq<BookOrder>)
    requires Ranked(side, heap) && |heap| > 1
    ensures Ranked(side, h) && multiset(heap) == multiset(h) + multiset{heap[0]}
    ensures Vals(h) == HeapPop(side, Vals(heap))
  {
    hide Vals, LastFirst, SinkToLeaf, BubbleUp, Ranked, HeapPop;
    LastFirstVals(side, heap);
    LastFirstEntries(heap);
    PopIs(side, Vals(heap));
    ghost var s := SinkToLeaf(side, Vals(LastFirst(heap)), 0);
    var sunk, pos := Sink(side, LastFirst(heap));
    assert s == Sunk(Vals(sunk), pos);
    h := SiftDown(side, sunk, pos);
    assert Vals(h) == BubbleUp(side, s.h, s.pos);
  }

  // ---------- Telling objects apart ----------

  /** No object stands in a heap twice. */
  predicate Single(h: seq<BookOrder>) {
    forall o :: o in h ==> multiset(h)[o] == 1
  }

  /** The objects of a heap are among those that arrived, each under its number. */
  ghost predicate Known(arrived: map<nat, BookOrder>, h: seq<BookOrder>) {
    forall i :: 0 <= i < |h| ==> h[i].no in arrived && arrived[h[i].no] == h[i]
  }

  lemma RootIsApart(h: seq<BookOrder>)
    requires Single(h) && h != []
    ensures forall i :: 0 < i < |h| ==> h[i] != h[0]
  {
    forall i | 0 < i < |h|
      ensures h[i] != h[0]
    {
      assert h == [h[0]] + h[1..i] + [h[i]] + h[i + 1..];
      assert multiset(h)[h[i]] >= (if h[i] == h[0] then 2 else 1);
    }
  }

  /** A heap and what it becomes when entries are taken out. */
  lemma TakenOut(side: Side, arrived: map<nat, BookOrder>, h: seq<BookOrder>, r: seq<BookOrder>, o: BookOrder)
    requires Single(h) && Known(arrived, h) && multiset(h) == multiset(r) + multiset{o}
    ensures Single(r) && Known(arrived, r) && |r| == |h| - 1 && forall i :: 0 <= i < |r| ==> r[i] in h
  {
    assert |multiset(h)| == |h| && |multiset(r)| == |r|;
    forall x | x in r
      ensures multiset(r)[x] == 1 && x in h
    {
      assert x in multiset(r);
      assert x in multiset(h);
    }
    forall i | 0 <= i < |r|
      ensures r[i].no in arrived && arrived[r[i].no] == r[i]
    {
      assert r[i] in h;
    }
  }

  lemma PutIn(arrived: map<nat, BookOrder>, h: seq<BookOrder>, r: seq<BookOrder>, o: BookOrder)
    requires Single(h) && Known(arrived, h) && o.no !in arrived && multiset(r) == multiset(h) + multiset{o}
    ensures Single(r) && Known(arrived[o.no := o], r) && Joined(r, o, h)
  {
    assert o !in h;
    assert multiset(h)[o] == 0;
    forall i | 0 <= i < |h|
      ensures h[i] in r
    {
      assert h[i] in multiset(r);
    }
    assert o in multiset(r);
    forall x | x in r
      ensures multiset(r)[x] == 1 && (x == o || x in h)
    {
      assert x in multiset(r);
      if x != o {
        assert x in multiset(h);
      }
    }
    forall i | 0 <= i < |r|
      ensures r[i].no in arrived[o.no := o] && arrived[o.no := o][r[i].no] == r[i]
    {
      assert r[i] == o || r[i] in h;
    }
  }

  predicate Indexes(orders: map<string, BookOrder>, bids: seq<BookOrder>, asks: seq<BookOrder>) {
    forall id :: id in orders ==> (orders[id] in bids || orders[id] in asks) && orders[id].orderId == id
  }

  lemma PopKeepsIndexes(resting: Side, orders: map<string, BookOrder>, bids: seq<BookOrder>, asks: seq<BookOrder>,
                        popped: seq<BookOrder>)
    requires Indexes(orders, bids, asks)
    requires var heap := if resting == Buy then bids else asks;
             heap != [] && multiset(heap) == multiset(popped) + multiset{heap[0]}
    ensures var heap := if resting == Buy then bids else asks;
            Indexes(orders - {heap[0].orderId}, if resting == Buy then popped else bids,
                    if resting == Buy then asks else popped)
  {
    var heap := if resting == Buy then bids else asks;
    forall id | id in orders && id != heap[0].orderId && orders[id] in heap
      ensures orders[id] in popped
    {
      assert orders[id] in multiset(popped) + multiset{heap[0]};
    }
  }

  /** Writing to other objects leaves these as they are. */
  twostate lemma Undisturbed(h: seq<BookOrder>)
    requires forall i :: 0 <= i < |h| ==> unchanged(h[i])
    ensures Vals(h) == old(Vals(h))
  {
  }

  /** Every entry of r is one of h. */
  predicate Within(r: seq<BookOrder>, h: seq<BookOrder>) {
    forall i :: 0 <= i < |r| ==> r[i] in h
  }

  ghost predicate HeapFits(side: Side, h: seq<BookOrder>, arrived: map<nat, BookOrder>) {
    Ranked(side, h) && Single(h) && Known(arrived, h)
  }

  ghost predicate Fits(bids: seq<BookOrder>, asks: seq<BookOrder>, orders: map<string, BookOrder>,
                       arrived: map<nat, BookOrder>, handled: nat)
  {
    && HeapFits(Buy, bids, arrived) && HeapFits(Sell, asks, arrived) && Indexes(orders, bids, asks)
    && forall n :: n in arrived ==> n < handled
  }

  method PopOff(ghost resting: Side, heap: seq<BookOrder>, ghost bids: seq<BookOrder>, ghost asks: seq<BookOrder>,
                ghost orders: map<string, BookOrder>, ghost arrived: map<nat, BookOrder>, ghost handled: nat)
    returns (popped: seq<BookOrder>)
    requires Fits(bids, asks, orders, arrived, handled) && heap == (if resting == Buy then bids else asks) && heap != []
    ensures var left := orders - {heap[0].orderId};
            if resting == Buy then Fits(popped, asks, left, arrived, handled)
            else Fits(bids, popped, left, arrived, handled)
    ensures Within(popped, heap) && |popped| == |heap| - 1
    ensures Vals(popped) == HeapPop(resting, Vals(heap))
  {
    hide Ranked, Single, Known, Vals, HeapPop, Indexes;
    popped := HeapPopped(resting, heap);
    TakenOut(resting, arrived, heap, popped, heap[0]);
    PopKeepsIndexes(resting, orders, bids, asks, popped);
  }

  lemma PopIgnoresRoot(side: Side, h: seq<Order>, x: Order)
    requires h != []
    ensures HeapPop(side, h[0 := x]) == HeapPop(side, h)
  {
    if |h| > 1 {
      assert h[0 := x][1..|h| - 1] == h[1..|h| - 1];
    }
  }

  lemma TurnIs(resting: Side, h: HeapFill, index: map<string, Stamp>)
    requires h.fill.book != []
    ensures var f, t := h.fill, HeapTurn(resting, h);
            var best := f.book[0];
            var m := Min(f.left, best.qty);
            var traded := f.book[0 := best.(qty := best.qty - m)];
            && t.fill.left == f.left - m && t.fill.filled == f.filled + m && t.fill.price == best.price
            && t.fill.book == (if best.qty - m <= 0 then HeapPop(resting, traded) else traded)
            && DropIds(index, t.popped)
               == if best.qty - m <= 0 then DropIds(index, h.popped) - {best.id} else DropIds(index, h.popped)
  {
    hide HeapPop;
    var best := h.fill.book[0];
    PopIgnoresRoot(resting, h.fill.book, best.(qty := best.qty - Min(h.fill.left, best.qty)));
    DropOneMore(index, h.popped, best);
  }

  lemma IndexWithout(orders: map<string, BookOrder>, id: string)
    ensures IndexOf(orders - {id}) == IndexOf(orders) - {id}
  {
  }

  lemma DropOneMore<T>(index: map<string, T>, popped: seq<Order>, best: Order)
    ensures DropIds(index, popped + [best]) == DropIds(index, popped) - {best.id}
  {
    forall id
      ensures HasId(popped + [best], id) <==> HasId(popped, id) || id == best.id
    {
      assert (popped + [best])[|popped|] == best;
      if HasId(popped, id) {
        var i :| 0 <= i < |popped| && popped[i].id == id;
        assert (popped + [best])[i].id == id;
      }
    }
  }

  lemma SidesApart(bids: seq<BookOrder>, asks: seq<BookOrder>)
    requires Ranked(Buy, bids) && Ranked(Sell, asks)
    ensures forall i, j :: 0 <= i < |bids| && 0 <= j < |asks| ==> bids[i] != asks[j]
  {
    forall i, j | 0 <= i < |bids| && 0 <= j < |asks|
      ensures bids[i] != asks[j]
    {
      assert bids[i].side != asks[j].side;
    }
  }

  lemma AskedOfRoot(resting: Side, h: seq<BookOrder>, bound: Bound, f: Fill)
    requires Ranked(resting, h) && f.book == Vals(h)
    ensures Goes(resting, bound, f) <==>
            f.left > 0 && h != [] && (bound.AtLimit? ==> h[0].priorityPrice <= Rank(resting, bound.price))
  {
  }

  lemma TurnGoes(resting: Side, h: seq<BookOrder>, bound: Bound, g: HeapFill)
    requires Ranked(resting, h) && g.fill.book == Vals(h) && g.fill.left > 0 && h != []
    requires bound.AtLimit? ==> h[0].priorityPrice <= Rank(resting, bound.price)
    ensures var t := HeapTurn(resting, g);
            && HeapSweep(resting, bound, g) == HeapSweep(resting, bound, t)
            && (|t.fill.book| < |h| || (|t.fill.book| == |h| && t.fill.left < g.fill.left && 0 <= t.fill.left))
  {
    AskedOfRoot(resting, h, bound, g.fill);
    HeapSweepTurn(resting, bound, g);
  }

  lemma LoopStops(resting: Side, h: seq<BookOrder>, bound: Bound, g: HeapFill)
    requires Ranked(resting, h) && g.fill.book == Vals(h)
    requires !(g.fill.left > 0 && h != [] && (bound.AtLimit? ==> h[0].priorityPrice <= Rank(resting, bound.price)))
    ensures HeapSweep(resting, bound, g) == g
  {
    AskedOfRoot(resting, h, bound, g.fill);
  }

  lemma DropNone<T>(index: map<string, T>)
    ensures DropIds(index, []) == index
  {
  }

  lemma PushFits(side: Side, bo: BookOrder, pushed: seq<BookOrder>, bids: seq<BookOrder>, asks: seq<BookOrder>,
                 orders: map<string, BookOrder>, arrived: map<nat, BookOrder>, handled: nat)
    requires Fits(bids, asks, orders, arrived, handled) && bo.no == handled && Ranked(side, pushed)
    requires multiset(pushed) == multiset(if side == Buy then bids else asks) + multiset{bo}
    ensures Fits(if side == Buy then pushed else bids, if side == Buy then asks else pushed, orders[bo.orderId := bo],
                 arrived[handled := bo], handled + 1)
    ensures Joined(pushed, bo, if side == Buy then bids else asks)
  {
    hide Ranked, Single, Known;
    PutIn(arrived, if side == Buy then bids else asks, pushed, bo);
    StillKnown(arrived, if side == Buy then asks else bids, bo);
    PushKeepsIndexes(side, bo, pushed, bids, asks, orders);
  }

  method PushOn(ghost side: Side, bo: BookOrder, heap: seq<BookOrder>, ghost bids: seq<BookOrder>,
                ghost asks: seq<BookOrder>, ghost orders: map<string, BookOrder>, ghost arrived: map<nat, BookOrder>,
                ghost handled: nat)
    returns (pushed: seq<BookOrder>)
    requires Fits(bids, asks, orders, arrived, handled) && heap == if side == Buy then bids else asks
    requires bo.no == handled && bo.side == side && bo.priorityPrice == Rank(side, bo.price)
    ensures Vals(pushed) == HeapPush(side, Vals(heap), Val(bo)) && Joined(pushed, bo, heap)
    ensures Fits(if side == Buy then pushed else bids, if side == Buy then asks else pushed, orders[bo.orderId := bo],
                 arrived[handled := bo], handled + 1)
  {
    hide Ranked, Single, Known, Indexes, Vals, HeapPush, Joined;
    pushed := HeapPushed(side, heap, bo);
    PushFits(side, bo, pushed, bids, asks, orders, arrived, handled);
  }

  lemma IndexGrown(orders: map<string, BookOrder>, bo: BookOrder)
    ensures IndexOf(orders[bo.orderId := bo]) == IndexOf(orders)[bo.orderId := StampOf(bo)]
  {
  }

  /** r is h with o somewhere in it. */
  predicate Joined(r: seq<BookOrder>, o: BookOrder, h: seq<BookOrder>) {
    && o in r && (forall i :: 0 <= i < |h| ==> h[i] in r) && (forall i :: 0 <= i < |r| ==> r[i] == o || r[i] in h)
  }

  lemma PushKeepsIndexes(side: Side, bo: BookOrder, pushed: seq<BookOrder>, bids: seq<BookOrder>, asks: seq<BookOrder>,
                         orders: map<string, BookOrder>)
    requires Indexes(orders, bids, asks) && Joined(pushed, bo, if side == Buy then bids else asks)
    ensures Indexes(orders[bo.orderId := bo], if side == Buy then pushed else bids,
                    if side == Buy then asks else pushed)
  {
  }

  lemma FitsOn(bids: seq<BookOrder>, asks: seq<BookOrder>, orders: map<string, BookOrder>,
               arrived: map<nat, BookOrder>, handled: nat)
    requires Fits(bids, asks, orders, arrived, handled)
    ensures Fits(bids, asks, orders, arrived, handled + 1)
  {
  }

  lemma IndexKeys(orders: map<string, BookOrder>)
    ensures forall id :: id in IndexOf(orders) <==> id in orders
    ensures forall id :: id in orders ==> IndexOf(orders)[id] == StampOf(orders[id])
  {
  }

  lemma IndexedOrder(id: string, bids: seq<BookOrder>, asks: seq<BookOrder>, orders: map<string, BookOrder>,
                     arrived: map<nat, BookOrder>, handled: nat)
    requires Fits(bids, asks, orders, arrived, handled) && id in orders
    ensures orders[id] in bids || orders[id] in asks
  {
  }

  lemma ForgetFits(id: string, bids: seq<BookOrder>, asks: seq<BookOrder>, orders: map<string, BookOrder>,
                   arrived: map<nat, BookOrder>, handled: nat)
    requires Fits(bids, asks, orders, arrived, handled)
    ensures Fits(bids, asks, orders - {id}, arrived, handled + 1)
  {
  }

  lemma StillKnown(arrived: map<nat, BookOrder>, h: seq<BookOrder>, o: BookOrder)
    requires Known(arrived, h) && o.no !in arrived
    ensures Known(arrived[o.no := o], h)
  {
  }

  class OrderBook {
    var bids: seq<BookOrder>
    var asks: seq<BookOrder>
    var orders: map<string, BookOrder>
    ghost var arrived: map<nat, BookOrder>
    ghost var handled: nat

    function Heap(side: Side): seq<BookOrder>
      reads this
    {
      if side == Buy then bids else asks
    }

    ghost predicate Valid()
      reads this
    {
      Fits(bids, asks, orders, arrived, handled)
    }

    ghost function View(): Lazy
      reads this, bids, asks
    {
      Lazy(Book(Vals(bids), Vals(asks)), IndexOf(orders))
    }

    constructor ()
      ensures Valid() && View() == Lazy(EmptyBook, map[]) && handled == 0
    {
      bids, asks, orders, arrived, handled := [], [], map[], map[], 0;
    }

    /** Pops the root of one heap and forgets its id. */
    method PopRoot(resting: Side)
      requires Valid() && Heap(resting) != []
      modifies this`bids, this`asks, this`orders
      ensures Valid()
      ensures Vals(Heap(resting)) == HeapPop(resting, old(Vals(Heap(resting))))
      ensures Within(Heap(resting), old(Heap(resting)))
      ensures |Heap(resting)| == |old(Heap(resting))| - 1
      ensures Heap(Opposite(resting)) == old(Heap(Opposite(resting)))
      ensures Vals(Heap(Opposite(resting))) == old(Vals(Heap(Opposite(resting))))
      ensures orders == old(orders) - {old(Heap(resting))[0].orderId}
    {
      hide Fits, Vals, HeapPop, Within;
      var heap := Heap(resting);
      var popped := PopOff(resting, heap, bids, asks, orders, arrived, handled);
      label unrooted:
      orders := orders - {heap[0].orderId};
      if resting == Buy {
        bids := popped;
      } else {
        asks := popped;
      }
      Undisturbed@unrooted(popped);
      Undisturbed(Heap(Opposite(resting)));
    }

    /** The taker trades with the root of the heap, in place. */
    method FillRoot(resting: Side, left: int) returns (best: BookOrder, m: int)
      requires Valid() && Heap(resting) != []
      modifies Heap(resting)[0]
      ensures best == Heap(resting)[0] && m == Min(left, old(best.remaining))
      ensures best.remaining == old(best.remaining) - m
      ensures var v := old(Vals(Heap(resting)));
              Vals(Heap(resting)) == v[0 := v[0].(qty := v[0].qty - m)]
      ensures Vals(Heap(Opposite(resting))) == old(Vals(Heap(Opposite(resting))))
    {
      RootIsApart(Heap(resting));
      SidesApart(bids, asks);
      best := Heap(resting)[0];
      m := Min(left, best.remaining);
      best.remaining := best.remaining - m;
    }

    /** A root with nothing left, traded out or a ghost, is popped and its id forgotten. */
    method DropSpent(resting: Side, best: BookOrder)
      requires Valid() && Heap(resting) != [] && best == Heap(resting)[0]
      modifies this`bids, this`asks, this`orders
      ensures Valid()
      ensures Vals(Heap(resting))
              == if best.remaining <= 0 then HeapPop(resting, old(Vals(Heap(resting)))) else old(Vals(Heap(resting)))
      ensures IndexOf(orders)
              == if best.remaining <= 0 then IndexOf(old(orders)) - {best.orderId} else IndexOf(old(orders))
      ensures Within(Heap(resting), old(Heap(resting)))
      ensures Heap(Opposite(resting)) == old(Heap(Opposite(resting)))
      ensures Vals(Heap(Opposite(resting))) == old(Vals(Heap(Opposite(resting))))
    {
      hide Fits, Vals, HeapPop;
      if best.remaining <= 0 {
        IndexWithout(orders, best.orderId);
        PopRoot(resting);
      }
    }

    /** One turn of the matching loop. */
    method TradeRoot(resting: Side, left: int, ghost h: HeapFill, ghost index: map<string, Stamp>)
      returns (price: int, m: int)
      requires Valid() && Heap(resting) != []
      requires h.fill.book == Vals(Heap(resting)) && h.fill.left == left && IndexOf(orders) == DropIds(index, h.popped)
      modifies this`bids, this`asks, this`orders, Heap(resting)[0]
      ensures Valid()
      ensures var t := HeapTurn(resting, h);
              && Vals(Heap(resting)) == t.fill.book && left - m == t.fill.left && price == t.fill.price
              && h.fill.filled + m == t.fill.filled && IndexOf(orders) == DropIds(index, t.popped)
      ensures Within(Heap(resting), old(Heap(resting)))
      ensures Heap(Opposite(resting)) == old(Heap(Opposite(resting)))
      ensures Vals(Heap(Opposite(resting))) == old(Vals(Heap(Opposite(resting))))
    {
      hide Fits, Vals, HeapPop, HeapTurn, DropIds, IndexOf, Within;
      TurnIs(resting, h, index);
      var best;
      best, m := FillRoot(resting, left);
      price := best.price;
      DropSpent(resting, best);
    }

    /** The matching loop of limit and market orders. */
    method Match(resting: Side, bound: Bound, qty: int)
      returns (ghost h: HeapFill, left: int, filled: int, fillPrice: int)
      requires Valid()
      modifies this`bids, this`asks, this`orders, Heap(resting)
      ensures Valid()
      ensures h == HeapSweep(resting, bound, HeapFill(Fill(old(View()).book.Of(resting), qty, 0, 0), []))
      ensures View() == HeapSwept(old(View()), resting, h)
      ensures left == h.fill.left && filled == h.fill.filled && fillPrice == h.fill.price
      ensures Within(Heap(resting), old(Heap(resting))) && Heap(Opposite(resting)) == old(Heap(Opposite(resting)))
    {
      hide Single, Known, Ranked, Indexes, Vals, HeapTurn, HeapSweep, DropIds, IndexOf, Goes;
      ghost var index := IndexOf(orders);
      left, filled, fillPrice := qty, 0, 0;
      h := HeapFill(Fill(Vals(Heap(resting)), qty, 0, 0), []);
      ghost var h0 := h;
      DropNone(index);
      while left > 0 && Heap(resting) != [] &&
            (bound.AtLimit? ==> Heap(resting)[0].priorityPrice <= Rank(resting, bound.price))
        invariant Valid() && Within(Heap(resting), old(Heap(resting)))
        invariant Heap(Opposite(resting)) == old(Heap(Opposite(resting)))
        invariant Vals(Heap(Opposite(resting))) == old(Vals(Heap(Opposite(resting))))
        invariant h.fill == Fill(Vals(Heap(resting)), left, filled, fillPrice)
        invariant IndexOf(orders) == DropIds(index, h.popped)
        invariant HeapSweep(resting, bound, h) == HeapSweep(resting, bound, h0)
        decreases |Heap(resting)|, left
      {
        TurnGoes(resting, Heap(resting), bound, h);
        var m;
        fillPrice, m := TradeRoot(resting, left, h, index);
        h := HeapTurn(resting, h);
        left, filled := left - m, filled + m;
      }
      LoopStops(resting, Heap(resting), bound, h);
    }

    /** Creates a resting order and pushes it. */
    method Enter(side: Side, id: string, price: int, left: int, now: int)
      requires Valid()
      modifies this
      ensures Valid() && handled == old(handled) + 1
      ensures Vals(Heap(side))
              == HeapPush(side, old(Vals(Heap(side))), Order(id, price, left, Stamp(now, old(handled))))
      ensures Vals(Heap(Opposite(side))) == old(Vals(Heap(Opposite(side))))
      ensures IndexOf(orders) == IndexOf(old(orders))[id := Stamp(now, old(handled))]
      ensures Heap(Opposite(side)) == old(Heap(Opposite(side)))
      ensures forall i :: 0 <= i < |Heap(side)| ==> Heap(side)[i] in old(Heap(side)) || fresh(Heap(side)[i])
    {
      hide Vals, Fits, HeapPush, IndexOf;
      var bo := new BookOrder(Rank(side, price), now, id, side, price, left, handled);
      Undisturbed(Heap(side));
      Undisturbed(Heap(Opposite(side)));
      label created:
      Install(side, bo);
      Undisturbed@created(Heap(Opposite(side)));
    }

    /** Pushes an order onto its heap and enters it under its id. */
    method Install(side: Side, bo: BookOrder)
      requires Valid() && bo.no == handled && bo.side == side && bo.priorityPrice == Rank(side, bo.price)
      modifies this
      ensures Valid() && handled == old(handled) + 1
      ensures Vals(Heap(side)) == HeapPush(side, old(Vals(Heap(side))), old(Val(bo)))
      ensures Joined(Heap(side), bo, old(Heap(side))) && Heap(Opposite(side)) == old(Heap(Opposite(side)))
      ensures IndexOf(orders) == IndexOf(old(orders))[bo.orderId := StampOf(bo)]
    {
      hide Vals, HeapPush, Fits, Joined, IndexOf;
      var pushed := PushOn(side, bo, Heap(side), bids, asks, orders, arrived, handled);
      IndexGrown(orders, bo);
      label pushing:
      if side == Buy {
        bids := pushed;
      } else {
        asks := pushed;
      }
      orders, arrived, handled := orders[bo.orderId := bo], arrived[handled := bo], handled + 1;
      Undisturbed@pushing(pushed);
    }

    /** Puts what a limit order has left on the book. */
    method Rest(side: Side, id: string, price: int, left: int, now: int)
      requires Valid()
      modifies this
      ensures Valid() && handled == old(handled) + 1
      ensures View() == HeapRested(old(View()), side, Order(id, price, left, Stamp(now, old(handled))))
      ensures Heap(Opposite(side)) == old(Heap(Opposite(side)))
      ensures forall i :: 0 <= i < |Heap(side)| ==> Heap(side)[i] in old(Heap(side)) || fresh(Heap(side)[i])
    {
      hide Fits, Vals, HeapPush, IndexOf;
      Enter(side, id, price, left, now);
    }

    method LimitOrder(id: string, side: Side, price: int, qty: int, now: int) returns (ack: Ack)
      requires Valid()
      modifies this, bids, asks
      ensures Valid() && handled == old(handled) + 1
      ensures LazyOutcome(View(), ack) == HeapStep(old(View()), Limit(id, side, price, qty), Stamp(now, old(handled)))
      ensures Within(Heap(Opposite(side)), old(Heap(Opposite(side))))
      ensures forall i :: 0 <= i < |Heap(side)| ==> Heap(side)[i] in old(Heap(side)) || fresh(Heap(side)[i])
    {
      hide Fits, Vals, HeapSweep, HeapPush, IndexOf, DropIds, HeapSwept, HeapRested, Within;
      var h, left, filled, fillPrice := Match(Opposite(side), AtLimit(price), qty);
      if left > 0 {
        Rest(side, id, price, left, now);
      } else {
        FitsOn(bids, asks, orders, arrived, handled);
        handled := handled + 1;
      }
      ack := Ack(id,
                 if filled > 0 && left == 0 then Filled else if filled > 0 then Partial else Accepted,
                 fillPrice, filled);
    }

    method MarketOrder(id: string, side: Side, qty: int, ghost now: int) returns (ack: Ack)
      requires Valid()
      modifies this, bids, asks
      ensures Valid() && handled == old(handled) + 1
      ensures LazyOutcome(View(), ack) == HeapStep(old(View()), Market(id, side, qty), Stamp(now, old(handled)))
      ensures Within(Heap(Opposite(side)), old(Heap(Opposite(side)))) && Heap(side) == old(Heap(side))
    {
      hide Fits, Vals, HeapSweep, IndexOf, DropIds, HeapSwept, Within;
      var h, left, filled, fillPrice := Match(Opposite(side), AtMarket, qty);
      FitsOn(bids, asks, orders, arrived, handled);
      handled := handled + 1;
      ack := Ack(id, if filled > 0 then Filled else Rejected, fillPrice, filled);
    }

    /** Writing 0 to one object zeroes it, and no other, in the heaps. */
    method ZeroOrder(o: BookOrder)
      requires Valid() && (o in bids || o in asks)
      modifies o
      ensures Vals(bids) == Zeroed(old(Vals(bids)), StampOf(o))
      ensures Vals(asks) == Zeroed(old(Vals(asks)), StampOf(o))
    {
      hide Ranked, Single, Indexes;
      o.remaining := 0;
      assert o.no in arrived && arrived[o.no] == o;
    }

    /** Cancellation is lazy: the order stays where it is in its heap, with nothing left. */
    method CancelOrder(id: string, ghost now: int) returns (ack: Ack)
      requires Valid()
      modifies this, bids, asks
      ensures Valid() && handled == old(handled) + 1
      ensures LazyOutcome(View(), ack) == HeapStep(old(View()), Cancel(id), Stamp(now, old(handled)))
      ensures bids == old(bids) && asks == old(asks)
    {
      hide Fits, Vals, Zeroed, IndexOf;
      FitsOn(bids, asks, orders, arrived, handled);
      IndexKeys(orders);
      if id in orders {
        IndexedOrder(id, bids, asks, orders, arrived, handled);
        ZeroOrder(orders[id]);
        IndexWithout(orders, id);
        ForgetFits(id, bids, asks, orders, arrived, handled);
        orders := orders - {id};
        ack := Ack(id, Cancelled, 0, 0);
      } else {
        ack := Ack(id, Rejected, 0, 0);
      }
      handled := handled + 1;
    }

    method ProcessOrder(r: Request, now: int) returns (ack: Ack)
      requires Valid()
      modifies this, bids, asks
      ensures Valid() && handled == old(handled) + 1
      ensures LazyOutcome(View(), ack) == HeapStep(old(View()), r, Stamp(now, old(handled)))
      ensures forall i :: 0 <= i < |bids| ==> bids[i] in old(bids) || fresh(bids[i])
      ensures forall i :: 0 <= i < |asks| ==> asks[i] in old(asks) || fresh(asks[i])
    {
      hide Fits, Vals, HeapStep, IndexOf;
      assert old(Heap(Buy)) == bids && old(Heap(Sell)) == asks;
      match r
      case Cancel(id) => ack := CancelOrder(id, now);
      case Market(id, side, qty) =>
        ack := MarketOrder(id, side, qty, now);
        assert Heap(Buy) == bids && Heap(Sell) == asks;
      case Limit(id, side, price, qty) =>
        ack := LimitOrder(id, side, price, qty, now);
        assert Heap(Buy) == bids && Heap(Sell) == asks;
    }

    /** Both heaps in heap order, nothing negative in them, and no bid reaching an ask. */
    ghost predicate Sound()
      reads this, bids, asks
    {
      Valid() && HeapsSound(View().book) && Uncrossed(View().book)
    }

    /** Any request leaves a sound book sound, the books balanced, and its answer honest. */
    method Process(r: Request, now: int, ghost l: Ledger) returns (ack: Ack)
      requires Sound() && Balanced(l, View().book)
      modifies this, bids, asks
      ensures Sound() && Balanced(Entered(l, r, ack.fillQty, Forgotten(old(View()), r)), View().book)
      ensures Honest(old(View()).book, r.id in old(View()).index, r, ack)
    {
      hide Fits, Vals, HeapStep, IndexOf, HeapsSound, Uncrossed, Honest;
      ghost var b, at := View(), Stamp(now, handled);
      HeapStepSound(b, r, at);
      HeapStepUncrossed(b, r, at);
      HeapStepBalances(l, b, r, at);
      HeapStepHonest(b, r, at);
      ack := ProcessOrder(r, now);
    }
  }
}
