/** Queues kept by price, then time stamp, as both engines keep theirs, and when that order is
    the order of arrival. */
module TimedQueue {
  import opened PriceTimeBook

  /** The order both engines keep a side in: the comparison that insert_sorted hands to
      lower_bound, and that of the heap's entries. */
  predicate Before(resting: Side, a: Order, b: Order) {
    if a.price != b.price then Rank(resting, a.price) < Rank(resting, b.price) else a.ts.time < b.ts.time
  }

  predicate SortedByPriceTime(resting: Side, s: seq<Order>) {
    forall i, j :: 0 <= i < j < |s| ==> !Before(resting, s[j], s[i])
  }

  /** The first entry that is not before o, which is what lower_bound promises. */
  function LowerBound(resting: Side, s: seq<Order>, o: Order): (k: nat)
    ensures k <= |s|
    ensures forall i :: 0 <= i < k ==> Before(resting, s[i], o)
    ensures k < |s| ==> !Before(resting, s[k], o)
  {
    if s == [] || !Before(resting, s[0], o) then 0 else 1 + LowerBound(resting, s[1..], o)
  }

  function Inserted(resting: Side, s: seq<Order>, o: Order): seq<Order> {
    var k := LowerBound(resting, s, o);
    s[..k] + [o] + s[k..]
  }

  /** Both sides in order, ghosts allowed. */
  predicate Timely(b: Book) {
    && SortedByPriceTime(Buy, b.bids) && NonNegative(b.bids)
    && SortedByPriceTime(Sell, b.asks) && NonNegative(b.asks)
  }

  lemma TimelyIsOrdered(b: Book)
    requires Timely(b)
    ensures Ordered(b)
  {
    PriceTimeIsByPrice(Buy, b.bids);
    PriceTimeIsByPrice(Sell, b.asks);
  }

  /** Insertion seen from the head of the queue. */
  lemma InsertedAtHead(resting: Side, s: seq<Order>, o: Order)
    ensures Inserted(resting, s, o)
            == if s == [] || !Before(resting, s[0], o) then [o] + s else [s[0]] + Inserted(resting, s[1..], o)
  {
    if s != [] && Before(resting, s[0], o) {
      var k := LowerBound(resting, s[1..], o);
      assert s[..k + 1] == [s[0]] + s[1..][..k] && s[1..][k..] == s[k + 1..];
    }
  }

  lemma InsertedAround(resting: Side, s: seq<Order>, o: Order)
    requires SortedByPriceTime(resting, s)
    ensures SortedByPriceTime(resting, Inserted(resting, s, o))
    ensures AllLive(s) && o.qty > 0 ==> AllLive(Inserted(resting, s, o))
    ensures NonNegative(s) && o.qty >= 0 ==> NonNegative(Inserted(resting, s, o))
  {
    var k := LowerBound(resting, s, o);
    forall i | k <= i < |s|
      ensures !Before(resting, s[i], o)
    {
      if i > k {
        assert !Before(resting, s[i], s[k]);
      }
    }
    InsertedBetween(resting, s, k, o);
  }

  lemma InsertedBetween(resting: Side, s: seq<Order>, k: nat, o: Order)
    requires SortedByPriceTime(resting, s) && k <= |s|
    requires forall i :: 0 <= i < |s| ==> (i < k <==> Before(resting, s[i], o))
    ensures SortedByPriceTime(resting, s[..k] + [o] + s[k..])
    ensures AllLive(s) && o.qty > 0 ==> AllLive(s[..k] + [o] + s[k..])
    ensures NonNegative(s) && o.qty >= 0 ==> NonNegative(s[..k] + [o] + s[k..])
  {
    var r := s[..k] + [o] + s[k..];
    assert forall i :: 0 <= i < |r| ==> r[i] == if i < k then s[i] else if i == k then o else s[i - 1];
  }

  lemma SuffixStaysTimed(resting: Side, s: seq<Order>, rest: seq<Order>)
    requires SuffixOf(s, rest)
    ensures SortedByPriceTime(resting, s) ==> SortedByPriceTime(resting, rest)
    ensures AllLive(s) ==> AllLive(rest)
    ensures NonNegative(s) ==> NonNegative(rest)
  {
    SuffixIds(s, rest);
    var d := |s| - |rest|;
    forall i, j | 0 <= i < j < |rest| && SortedByPriceTime(resting, s)
      ensures !Before(resting, rest[j], rest[i])
    {
      assert !Before(resting, s[d + j], s[d + i]);
    }
    forall i | 0 <= i < |rest| && AllLive(s)
      ensures rest[i].qty > 0
    {
      assert rest[i].qty == s[d + i].qty || i == 0;
    }
    forall i | 0 <= i < |rest| && NonNegative(s)
      ensures rest[i].qty >= 0
    {
      assert s[d + i].qty >= 0;
    }
  }

  // ---------- First in, first out needs a strictly increasing clock ----------

  /** Binary-search insertion queues a new order behind everything resting at its price
      exactly when all of it carries a smaller time stamp. */
  lemma InsertedIsPlacedIff(resting: Side, s: seq<Order>, o: Order)
    requires SortedByPriceTime(resting, s) && o !in s
    ensures Inserted(resting, s, o) == Place(resting, s, o) <==>
            forall i :: 0 <= i < |s| && s[i].price == o.price ==> s[i].ts.time < o.ts.time
  {
    PriceTimeIsByPrice(resting, s);
    var k := LowerBound(resting, s, o);
    var p := PlaceAt(resting, s, o);
    InsertionPoint(s, k, p, o);
    PointsAgreeIff(resting, s, k, p, o);
  }

  lemma PointsAgreeIff(resting: Side, s: seq<Order>, k: nat, p: nat, o: Order)
    requires k <= |s| && p <= |s|
    requires forall i :: 0 <= i < k ==> Before(resting, s[i], o)
    requires k < |s| ==> !Before(resting, s[k], o)
    requires forall i :: 0 <= i < |s| ==> (i < p <==> Rank(resting, s[i].price) <= Rank(resting, o.price))
    ensures k == p <==> forall i :: 0 <= i < |s| && s[i].price == o.price ==> s[i].ts.time < o.ts.time
  {
    assert p < |s| ==> !Before(resting, s[p], o);
    if k == p {
      assert forall i :: 0 <= i < |s| && s[i].price == o.price ==> i < p && Before(resting, s[i], o);
    } else {
      assert k < p && s[k].price == o.price && o.ts.time <= s[k].ts.time;
    }
  }

  lemma InsertionPoint(s: seq<Order>, k: nat, p: nat, o: Order)
    requires k <= |s| && p <= |s| && o !in s
    ensures s[..k] + [o] + s[k..] == s[..p] + [o] + s[p..] <==> k == p
  {
    if k < p {
      assert (s[..k] + [o] + s[k..])[k] == o;
      assert (s[..p] + [o] + s[p..])[k] == s[k];
    } else if p < k {
      assert (s[..p] + [o] + s[p..])[p] == o;
      assert (s[..k] + [o] + s[k..])[p] == s[p];
    }
  }

  lemma PriceTimeIsByPrice(resting: Side, s: seq<Order>)
    requires SortedByPriceTime(resting, s)
    ensures SortedByPrice(resting, s)
  {
    forall i, j | 0 <= i < j < |s|
      ensures Rank(resting, s[i].price) <= Rank(resting, s[j].price)
    {
      assert !Before(resting, s[j], s[i]);
    }
  }
}
