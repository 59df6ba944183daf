/** First in, first out: in what order the reference book and the C++ engine keep the orders of
    one price, and when the C++ engine's book is the reference book. */
module ArrivalOrder {
  import opened PriceTimeBook
  import opened TimedQueue
  import opened Histories
  import opened DictionaryHistories
  import opened EngineAgreement
  import opened BookHistories
  import Vectors = SortedVectorBook

  // ---------- The reference book keeps the order of arrival ----------

  predicate InArrivalOrder(s: seq<Order>) {
    forall i, j :: 0 <= i < j < |s| && s[i].price == s[j].price ==> s[i].ts.no < s[j].ts.no
  }

  predicate NumberedBelow(s: seq<Order>, n: nat) {
    forall i :: 0 <= i < |s| ==> s[i].ts.no < n
  }

  /** A side by price and then arrival, its orders placed by the first n requests. */
  predicate Arrived(resting: Side, s: seq<Order>, n: nat) {
    SortedByPrice(resting, s) && NonNegative(s) && InArrivalOrder(s) && NumberedBelow(s, n)
  }

  predicate BookArrived(b: Book, n: nat) {
    Arrived(Buy, b.bids, n) && Arrived(Sell, b.asks, n)
  }

  lemma SuffixInOrder(s: seq<Order>, rest: seq<Order>, n: nat)
    requires InArrivalOrder(s) && NumberedBelow(s, n) && SuffixOf(s, rest)
    ensures InArrivalOrder(rest) && NumberedBelow(rest, n)
  {
    SuffixIds(s, rest);
    var d := |s| - |rest|;
    forall i, j | 0 <= i < j < |rest| && rest[i].price == rest[j].price
      ensures rest[i].ts.no < rest[j].ts.no
    {
      assert s[d + i].ts.no < s[d + j].ts.no;
    }
  }

  lemma SweptArrived(resting: Side, bound: Bound, f: Fill, n: nat)
    requires Arrived(resting, f.book, n)
    ensures Arrived(resting, Sweep(resting, bound, f).book, n)
  {
    hide Sweep, SuffixOf, SortedByPrice, NonNegative, InArrivalOrder, NumberedBelow;
    SweepLeavesSuffix(resting, bound, f);
    SuffixOrdered(resting, f.book, Sweep(resting, bound, f).book);
    SuffixInOrder(f.book, Sweep(resting, bound, f).book, n);
  }

  lemma JoinedOrdered(resting: Side, s: seq<Order>, k: nat, o: Order)
    requires SortedByPrice(resting, s) && NonNegative(s) && o.qty >= 0 && k <= |s|
    requires forall i :: 0 <= i < |s| ==> (i < k <==> Rank(resting, s[i].price) <= Rank(resting, o.price))
    ensures var r := s[..k] + [o] + s[k..]; SortedByPrice(resting, r) && NonNegative(r)
  {
    hide Rank;
    var r := s[..k] + [o] + s[k..];
    assert forall i :: 0 <= i < |r| ==> r[i] == if i < k then s[i] else if i == k then o else s[i - 1];
  }

  lemma JoinedInOrder(s: seq<Order>, k: nat, o: Order)
    requires InArrivalOrder(s) && NumberedBelow(s, o.ts.no) && k <= |s|
    requires forall i :: k <= i < |s| ==> s[i].price != o.price
    ensures var r := s[..k] + [o] + s[k..]; InArrivalOrder(r) && NumberedBelow(r, o.ts.no + 1)
  {
    var r := s[..k] + [o] + s[k..];
    assert forall i :: 0 <= i < |r| ==> r[i] == if i < k then s[i] else if i == k then o else s[i - 1];
  }

  lemma PlacedArrived(resting: Side, s: seq<Order>, o: Order)
    requires Arrived(resting, s, o.ts.no) && o.qty >= 0
    ensures Arrived(resting, Place(resting, s, o), o.ts.no + 1)
  {
    hide Place, SortedByPrice, NonNegative, InArrivalOrder, NumberedBelow;
    var k := PlaceAt(resting, s, o);
    JoinedOrdered(resting, s, k, o);
    JoinedInOrder(s, k, o);
  }

  lemma ErasedOrdered(resting: Side, s: seq<Order>, k: nat)
    requires SortedByPrice(resting, s) && NonNegative(s) && k < |s|
    ensures var r := s[..k] + s[k + 1..]; SortedByPrice(resting, r) && NonNegative(r)
  {
    hide Rank;
    var r := s[..k] + s[k + 1..];
    assert forall i :: 0 <= i < |r| ==> r[i] == s[if i < k then i else i + 1];
  }

  lemma ErasedInOrder(s: seq<Order>, k: nat, n: nat)
    requires InArrivalOrder(s) && NumberedBelow(s, n) && k < |s|
    ensures var r := s[..k] + s[k + 1..]; InArrivalOrder(r) && NumberedBelow(r, n)
  {
    var r := s[..k] + s[k + 1..];
    assert forall i :: 0 <= i < |r| ==> r[i] == s[if i < k then i else i + 1];
  }

  lemma RemovedArrived(resting: Side, s: seq<Order>, id: string, n: nat)
    requires Arrived(resting, s, n) && HasId(s, id)
    ensures Arrived(resting, Remove(s, id), n)
  {
    hide Remove, HasId, SortedByPrice, NonNegative, InArrivalOrder, NumberedBelow;
    var k := RemoveAt(s, id);
    ErasedOrdered(resting, s, k);
    ErasedInOrder(s, k, n);
  }

  lemma StepArrived(b: Book, r: Request, now: Stamp)
    requires BookArrived(b, now.no)
    ensures BookArrived(Step(b, r, now).book, now.no + 1)
  {
    hide Place, Sweep, Remove, SortedByPrice, NonNegative, InArrivalOrder;
    match r
    case Limit(id, side, price, qty) =>
      var f := Take(b, side, AtLimit(price), qty);
      SweptArrived(Opposite(side), AtLimit(price), Fill(b.Of(Opposite(side)), qty, 0, 0), now.no);
      if f.left > 0 {
        PlacedArrived(side, b.Of(side), Order(id, price, f.left, now));
      }
    case Market(id, side, qty) =>
      SweptArrived(Opposite(side), AtMarket, Fill(b.Of(Opposite(side)), qty, 0, 0), now.no);
    case Cancel(id) =>
      if HasId(b.bids, id) {
        RemovedArrived(Buy, b.bids, id, now.no);
      } else if HasId(b.asks, id) {
        RemovedArrived(Sell, b.asks, id, now.no);
      }
  }

  /** Over any history, whatever ids and clock readings come, both sides of the reference book
      are by price and, at one price, in the order in which the orders arrived. */
  lemma {:induction false} SpecInArrivalOrder(es: seq<Event>)
    ensures BookArrived(SpecBook(es), |es|)
  {
    hide Step;
    if es != [] {
      SpecInArrivalOrder(Front(es));
      StepArrived(SpecBook(Front(es)), Last(es).req, Now(es));
    }
  }

  // ---------- When the C++ engine's book is the reference book ----------

  /** Whatever a limit order leaves to rest finds, at its price, only orders stamped earlier. */
  predicate MeetsEarlier(b: Book, r: Request, now: Stamp) {
    r.Limit? && Take(b, r.side, AtLimit(r.price), r.qty).left > 0 ==>
      forall i :: 0 <= i < |b.Of(r.side)| && b.Of(r.side)[i].price == r.price ==> b.Of(r.side)[i].ts.time < now.time
  }

  lemma StepsAgreeIff(b: Book, r: Request, now: Stamp)
    requires Vectors.ValidVectors(b) && BookArrived(b, now.no)
    ensures Vectors.EngineStep(b, r, now).book == Step(b, r, now).book <==> MeetsEarlier(b, r, now)
    ensures Vectors.EngineStep(b, r, now).ack == Step(b, r, now).ack
  {
    hide Sweep, Place, Inserted;
    if r.Limit? {
      var f := Take(b, r.side, AtLimit(r.price), r.qty);
      var o := Order(r.id, r.price, f.left, now);
      assert o !in b.Of(r.side);
      InsertedIsPlacedIff(r.side, b.Of(r.side), o);
    }
  }

  /** The vectors are the reference book now and were after every request before. */
  predicate AlwaysSpec(es: seq<Event>) {
    VectorBook(es) == SpecBook(es) && (es != [] ==> AlwaysSpec(Front(es)))
  }

  /** Every order placed met only earlier-stamped orders at its price. */
  predicate AlwaysMeetsEarlier(es: seq<Event>) {
    es != [] ==> AlwaysMeetsEarlier(Front(es)) && MeetsEarlier(VectorBook(Front(es)), Last(es).req, Now(es))
  }

  /** Over any history the vectors are the reference book throughout if and only if every order
      placed met only earlier-stamped orders at its price; and then every answer is the same. */
  lemma {:induction false} VectorsAreSpecIff(es: seq<Event>)
    ensures AlwaysSpec(es) <==> AlwaysMeetsEarlier(es)
    ensures AlwaysSpec(es) && es != [] ==> VectorAck(es) == SpecAck(es)
  {
    hide Step, Vectors.EngineStep, MeetsEarlier, BookArrived, Vectors.ValidVectors;
    if es != [] {
      VectorsAreSpecIff(Front(es));
      VectorsNeverCross(Front(es));
      SpecInArrivalOrder(Front(es));
      if AlwaysSpec(Front(es)) {
        StepsAgreeIff(VectorBook(Front(es)), Last(es).req, Now(es));
      }
    }
  }

  // ---------- The vectors' orders and the requests that placed them ----------

  predicate FromRequest(es: seq<Event>, side: Side, o: Order) {
    PlacedOn(es, side, o) && PlacedBy(es, o.ts.no, o)
  }

  /** Every order of the side was placed by the request it is numbered with, each by its own. */
  predicate Tracked(es: seq<Event>, side: Side, s: seq<Order>) {
    (forall i :: 0 <= i < |s| ==> FromRequest(es, side, s[i])) && DistinctStamps(s)
  }

  predicate BookTracked(es: seq<Event>, b: Book) {
    Tracked(es, Buy, b.bids) && Tracked(es, Sell, b.asks)
  }

  lemma TrackedLater(es: seq<Event>, side: Side, s: seq<Order>)
    requires es != [] && Tracked(Front(es), side, s)
    ensures Tracked(es, side, s)
  {
    forall i | 0 <= i < |s|
      ensures FromRequest(es, side, s[i])
    {
      assert FromRequest(Front(es), side, s[i]);
    }
  }

  lemma SuffixTracked(es: seq<Event>, side: Side, s: seq<Order>, rest: seq<Order>)
    requires Tracked(es, side, s) && SuffixOf(s, rest)
    ensures Tracked(es, side, rest)
  {
    SuffixIds(s, rest);
    var d := |s| - |rest|;
    forall i | 0 <= i < |rest|
      ensures FromRequest(es, side, rest[i])
    {
      assert FromRequest(es, side, s[d + i]);
    }
    forall i, j | 0 <= i < j < |rest|
      ensures rest[i].ts != rest[j].ts
    {
      assert s[d + i].ts != s[d + j].ts;
    }
  }

  lemma ErasedTracked(es: seq<Event>, side: Side, s: seq<Order>, k: nat)
    requires Tracked(es, side, s) && k < |s|
    ensures Tracked(es, side, s[..k] + s[k + 1..])
  {
    hide FromRequest;
    var r := s[..k] + s[k + 1..];
    assert forall i :: 0 <= i < |r| ==> r[i] == s[if i < k then i else i + 1];
  }

  lemma JoinedTracked(es: seq<Event>, side: Side, s: seq<Order>, k: nat, o: Order)
    requires Tracked(es, side, s) && k <= |s| && FromRequest(es, side, o) && !HasStamp(s, o.ts)
    ensures Tracked(es, side, s[..k] + [o] + s[k..])
  {
    hide FromRequest;
    var r := s[..k] + [o] + s[k..];
    assert forall i :: 0 <= i < |r| ==> r[i] == if i < k then s[i] else if i == k then o else s[i - 1];
  }

  lemma NewStamp(es: seq<Event>, side: Side, s: seq<Order>)
    requires es != [] && Tracked(Front(es), side, s)
    ensures !HasStamp(s, Now(es))
  {
    forall i | 0 <= i < |s|
      ensures s[i].ts != Now(es)
    {
      assert FromRequest(Front(es), side, s[i]);
    }
  }

  lemma TakenTracked(es: seq<Event>, b: Book, side: Side, bound: Bound, qty: int)
    requires Tracked(es, Opposite(side), b.Of(Opposite(side))) && NonNegative(b.Of(Opposite(side)))
    ensures Tracked(es, Opposite(side), Take(b, side, bound, qty).book)
  {
    hide Tracked;
    var f := Fill(b.Of(Opposite(side)), qty, 0, 0);
    SweepLeavesSuffix(Opposite(side), bound, f);
    SuffixTracked(es, Opposite(side), f.book, Sweep(Opposite(side), bound, f).book);
  }

  lemma StepTracked(es: seq<Event>, b: Book)
    requires es != [] && BookTracked(Front(es), b) && Ordered(b)
    ensures BookTracked(es, Vectors.EngineStep(b, Last(es).req, Now(es)).book)
  {
    hide Tracked, Sweep, HasStamp, SortedByPrice;
    TrackedLater(es, Buy, b.bids);
    TrackedLater(es, Sell, b.asks);
    match Last(es).req
    case Limit(id, side, price, qty) =>
      TakenTracked(es, b, side, AtLimit(price), qty);
      var f := Take(b, side, AtLimit(price), qty);
      var o := Order(id, price, f.left, Now(es));
      NewStamp(es, side, b.Of(side));
      JoinedTracked(es, side, b.Of(side), LowerBound(side, b.Of(side), o), o);
    case Market(id, side, qty) =>
      TakenTracked(es, b, side, AtMarket, qty);
    case Cancel(id) =>
      if HasId(b.bids, id) {
        var k := RemoveAt(b.bids, id);
        ErasedTracked(es, Buy, b.bids, k);
      } else if HasId(b.asks, id) {
        var k := RemoveAt(b.asks, id);
        ErasedTracked(es, Sell, b.asks, k);
      }
  }

  lemma {:induction false} VectorsTracked(es: seq<Event>)
    ensures BookTracked(es, VectorBook(es))
  {
    hide Vectors.EngineStep, Tracked;
    if es == [] {
      NothingTracked(es);
    } else {
      VectorsTracked(Front(es));
      VectorsNeverCross(Front(es));
      StepTracked(es, VectorBook(Front(es)));
    }
  }

  lemma NothingTracked(es: seq<Event>)
    ensures BookTracked(es, EmptyBook)
  {
  }

  // ---------- The vectors keep the order of the stamps ----------

  predicate InStampOrder(s: seq<Order>) {
    forall i, j :: 0 <= i < j < |s| && s[i].price == s[j].price ==> s[i].ts.time < s[j].ts.time
  }

  lemma TrackedInStampOrder(es: seq<Event>, side: Side, s: seq<Order>)
    requires Tracked(es, side, s) && SortedByPriceTime(side, s)
    ensures FreshKeys(es) ==> InStampOrder(s)
    ensures FreshIds(es) ==> DistinctIds(s)
  {
    forall i, j | 0 <= i < j < |s|
      ensures FreshIds(es) ==> s[i].id != s[j].id
      ensures FreshKeys(es) && s[i].price == s[j].price ==> s[i].ts.time < s[j].ts.time
    {
      assert FromRequest(es, side, s[i]) && FromRequest(es, side, s[j]) && !Before(side, s[j], s[i]);
      var k, l := s[i].ts.no, s[j].ts.no;
      assert k != l;
      if s[i].price == s[j].price {
        assert QueueTogether(es[k].req, es[l].req) && QueueTogether(es[l].req, es[k].req);
      }
    }
  }

  /** As long as no two limit orders of one side and price read the same time, equally priced
      orders stand in the order of their stamps, whatever the ids; with fresh ids no two orders
      of a side share one. */
  lemma VectorsInStampOrder(es: seq<Event>)
    ensures FreshKeys(es) ==> InStampOrder(VectorBook(es).bids) && InStampOrder(VectorBook(es).asks)
    ensures FreshIds(es) ==> DistinctIds(VectorBook(es).bids) && DistinctIds(VectorBook(es).asks)
  {
    hide Tracked, InStampOrder, DistinctIds, FreshKeys, FreshIds;
    VectorsTracked(es);
    VectorsNeverCross(es);
    TrackedInStampOrder(es, Buy, VectorBook(es).bids);
    TrackedInStampOrder(es, Sell, VectorBook(es).asks);
  }

  // ---------- Who trades first ----------

  lemma AheadTradesFirst(resting: Side, bound: Bound, f: Fill, i: nat, j: nat)
    requires NonNegative(f.book) && DistinctStamps(f.book) && i < j < |f.book|
    requires f.book[j] !in Sweep(resting, bound, f).book
    ensures !HasStamp(Sweep(resting, bound, f).book, f.book[i].ts)
  {
    PriceTimePriority(resting, bound, f, i, j);
    var rest := Sweep(resting, bound, f).book;
    assert Touched(f.book, rest, j);
  }

  lemma InFront(resting: Side, s: seq<Order>, i: nat, j: nat)
    requires SortedByPriceTime(resting, s) && i < |s| && j < |s|
    ensures Before(resting, s[i], s[j]) ==> i < j
  {
    if j < i {
      assert !Before(resting, s[i], s[j]);
    }
  }

  lemma FirstInFront(s: seq<Order>, i: nat, j: nat)
    requires InArrivalOrder(s) && i < |s| && j < |s| && s[i].price == s[j].price
    ensures s[i].ts.no < s[j].ts.no ==> i < j
  {
    if j < i {
      assert s[j].ts.no < s[i].ts.no;
    }
  }

  /** Over any history, whatever ids and clock readings come: once a taker has touched an order,
      every order of the side that has a better price, or the same and an earlier stamp, is gone. */
  lemma EarlierTradesFirst(es: seq<Event>, taker: Side, bound: Bound, qty: int, a: Order, b: Order)
    requires var s := VectorBook(es).Of(Opposite(taker));
             a in s && b in s && Before(Opposite(taker), a, b) && b !in Take(VectorBook(es), taker, bound, qty).book
    ensures !HasStamp(Take(VectorBook(es), taker, bound, qty).book, a.ts)
  {
    VectorsTracked(es);
    VectorsNeverCross(es);
    var s := VectorBook(es).Of(Opposite(taker));
    var i :| 0 <= i < |s| && s[i] == a;
    var j :| 0 <= j < |s| && s[j] == b;
    InFront(Opposite(taker), s, i, j);
    AheadTradesFirst(Opposite(taker), bound, Fill(s, qty, 0, 0), i, j);
  }

  /** If every order placed met only earlier-stamped orders at its price, then of two orders of
      one price the one that arrived first is gone once a taker has touched the other. */
  lemma FirstInTradesFirst(es: seq<Event>, taker: Side, bound: Bound, qty: int, a: Order, b: Order)
    requires AlwaysMeetsEarlier(es)
    requires var s := VectorBook(es).Of(Opposite(taker));
             a in s && b in s && a.price == b.price && a.ts.no < b.ts.no
             && b !in Take(VectorBook(es), taker, bound, qty).book
    ensures !HasStamp(Take(VectorBook(es), taker, bound, qty).book, a.ts)
  {
    VectorsTracked(es);
    VectorsNeverCross(es);
    VectorsAreSpecIff(es);
    SpecInArrivalOrder(es);
    var s := VectorBook(es).Of(Opposite(taker));
    var i :| 0 <= i < |s| && s[i] == a;
    var j :| 0 <= j < |s| && s[j] == b;
    FirstInFront(s, i, j);
    AheadTradesFirst(Opposite(taker), bound, Fill(s, qty, 0, 0), i, j);
  }
}
