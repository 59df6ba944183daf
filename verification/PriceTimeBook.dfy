/** The reference limit order book both sample trading engines are measured against.
    A side of the book is the sequence of its resting orders, best price first and, at
    one price, in order of arrival. Prices are whole cents. */
module PriceTimeBook {

  datatype Side = Buy | Sell

  function Opposite(side: Side): Side {
    if side == Buy then Sell else Buy
  }

  /** When a request was handled: the reading of the clock, and the number of the request. No
      engine looks at the number; it is there to tell apart orders whatever the clock reads. */
  datatype Stamp = Stamp(time: int, no: nat)

  datatype Order = Order(id: string, price: int, qty: int, ts: Stamp)

  /** The worst price a taker accepts. */
  datatype Bound = AtMarket | AtLimit(price: int)

  datatype Status = Filled | Partial | Accepted | Cancelled | Rejected

  datatype Ack = Ack(id: string, status: Status, fillPrice: int, fillQty: int)

  datatype Request =
    | Limit(id: string, side: Side, price: int, qty: int)
    | Market(id: string, side: Side, qty: int)
    | Cancel(id: string)

  datatype Book = Book(bids: seq<Order>, asks: seq<Order>) {
    function Of(side: Side): seq<Order> {
      if side == Buy then bids else asks
    }

    function With(side: Side, orders: seq<Order>): Book {
      if side == Buy then this.(bids := orders) else this.(asks := orders)
    }
  }

  datatype Outcome = Outcome(book: Book, ack: Ack)

  const EmptyBook := Book([], [])

  function Min(a: int, b: int): int { if a <= b then a else b }

  function Max(a: int, b: int): int { if a >= b then a else b }

  /** The position of a price in the queue of one side: the smaller, the earlier it trades. */
  function Rank(resting: Side, price: int): int {
    if resting == Buy then -price else price
  }

  /** Would a taker with this bound trade against a resting order of this price? */
  predicate Crosses(resting: Side, bound: Bound, price: int) {
    bound.AtMarket? || Rank(resting, price) <= Rank(resting, bound.price)
  }

  /** A matching sweep in progress: the side it eats into, what the taker still wants, what
      it has received, and the price of the order visited last. */
  datatype Fill = Fill(book: seq<Order>, left: int, filled: int, price: int)

  function Sweep(resting: Side, bound: Bound, f: Fill): Fill
    decreases |f.book|
  {
    if f.left <= 0 || f.book == [] || !Crosses(resting, bound, f.book[0].price) then f
    else
      var best := f.book[0];
      var m := Min(f.left, best.qty);
      if m == best.qty then
        Sweep(resting, bound, Fill(f.book[1..], f.left - m, f.filled + m, best.price))
      else
        Fill([best.(qty := best.qty - m)] + f.book[1..], f.left - m, f.filled + m, best.price)
  }

  /** The sweep of a fresh taker order. */
  function Take(b: Book, side: Side, bound: Bound, qty: int): Fill {
    Sweep(Opposite(side), bound, Fill(b.Of(Opposite(side)), qty, 0, 0))
  }

  /** A new order queues behind every order of the same or a better price. */
  function Place(resting: Side, s: seq<Order>, o: Order): seq<Order> {
    if s == [] || Rank(resting, o.price) < Rank(resting, s[0].price) then [o] + s
    else [s[0]] + Place(resting, s[1..], o)
  }

  predicate HasId(s: seq<Order>, id: string) {
    exists i :: 0 <= i < |s| && s[i].id == id
  }

  /** Drops the first order with this id, if there is one. */
  function Remove(s: seq<Order>, id: string): seq<Order> {
    if s == [] then []
    else if s[0].id == id then s[1..]
    else [s[0]] + Remove(s[1..], id)
  }

  function LimitStatus(filled: int, left: int): Status {
    if filled > 0 && left == 0 then Filled
    else if filled > 0 then Partial
    else Accepted
  }

  function LimitAck(id: string, f: Fill): Ack {
    Ack(id, LimitStatus(f.filled, f.left), f.price, f.filled)
  }

  function MarketAck(id: string, f: Fill): Ack {
    Ack(id, if f.filled > 0 then Filled else Rejected, f.price, f.filled)
  }

  function CancelAck(id: string, found: bool): Ack {
    Ack(id, if found then Cancelled else Rejected, 0, 0)
  }

  /** One request against the reference book; now stamps the order it may place. */
  function Step(b: Book, r: Request, now: Stamp): Outcome {
    match r
    case Limit(id, side, price, qty) =>
      var f := Take(b, side, AtLimit(price), qty);
      var swept := b.With(Opposite(side), f.book);
      var rested := if f.left > 0
                    then swept.With(side, Place(side, b.Of(side), Order(id, price, f.left, now)))
                    else swept;
      Outcome(rested, LimitAck(id, f))
    case Market(id, side, qty) =>
      var f := Take(b, side, AtMarket, qty);
      Outcome(b.With(Opposite(side), f.book), MarketAck(id, f))
    case Cancel(id) =>
      if HasId(b.bids, id) then Outcome(b.(bids := Remove(b.bids, id)), CancelAck(id, true))
      else if HasId(b.asks, id) then Outcome(b.(asks := Remove(b.asks, id)), CancelAck(id, true))
      else Outcome(b, CancelAck(id, false))
  }

  // ---------- Shape of a side ----------

  predicate SortedByPrice(resting: Side, s: seq<Order>) {
    forall i, j :: 0 <= i < j < |s| ==> Rank(resting, s[i].price) <= Rank(resting, s[j].price)
  }

  predicate NonNegative(s: seq<Order>) {
    forall i :: 0 <= i < |s| ==> s[i].qty >= 0
  }

  predicate AllLive(s: seq<Order>) {
    forall i :: 0 <= i < |s| ==> s[i].qty > 0
  }

  predicate Ordered(b: Book) {
    SortedByPrice(Buy, b.bids) && SortedByPrice(Sell, b.asks) && NonNegative(b.bids) && NonNegative(b.asks)
  }

  predicate StampedBefore(s: seq<Order>, now: int) {
    forall i :: 0 <= i < |s| ==> s[i].ts.time < now
  }

  predicate BookBefore(b: Book, now: int) {
    StampedBefore(b.bids, now) && StampedBefore(b.asks, now)
  }

  function Total(s: seq<Order>): int {
    if s == [] then 0 else s[0].qty + Total(s[1..])
  }

  /** The quantity resting at acceptable prices, wherever in the sequence it rests. */
  function Depth(resting: Side, bound: Bound, s: seq<Order>): int {
    if s == [] then 0
    else (if Crosses(resting, bound, s[0].price) then s[0].qty else 0) + Depth(resting, bound, s[1..])
  }

  // ---------- What a sweep achieves ----------

  lemma {:induction false} DepthBeyondBound(resting: Side, bound: Bound, s: seq<Order>)
    requires SortedByPrice(resting, s)
    requires s != [] ==> !Crosses(resting, bound, s[0].price)
    ensures Depth(resting, bound, s) == 0
  {
    if s != [] {
      DepthBeyondBound(resting, bound, s[1..]);
    }
  }

  lemma {:induction false} DepthNonNegative(resting: Side, bound: Bound, s: seq<Order>)
    requires NonNegative(s)
    ensures 0 <= Depth(resting, bound, s)
  {
    if s != [] {
      DepthNonNegative(resting, bound, s[1..]);
    }
  }

  /** A taker receives exactly the smaller of what it asked for and what rests at acceptable
      prices; with zero-quantity entries in the queue too. */
  lemma {:induction false} SweepFillsDepth(resting: Side, bound: Bound, f: Fill)
    requires SortedByPrice(resting, f.book) && NonNegative(f.book)
    ensures var r := Sweep(resting, bound, f);
            var traded := Min(Max(f.left, 0), Depth(resting, bound, f.book));
            r.filled == f.filled + traded && r.left == f.left - traded
    decreases |f.book|
  {
    DepthNonNegative(resting, bound, f.book);
    if f.left <= 0 || f.book == [] {
    } else if !Crosses(resting, bound, f.book[0].price) {
      DepthBeyondBound(resting, bound, f.book);
    } else {
      var best := f.book[0];
      var m := Min(f.left, best.qty);
      DepthNonNegative(resting, bound, f.book[1..]);
      if m == best.qty {
        SweepFillsDepth(resting, bound, Fill(f.book[1..], f.left - m, f.filled + m, best.price));
      }
    }
  }

  /** The first n orders of s are gone, traded being their quantity; or in addition the next
      one is partly traded. Nothing behind it has changed. */
  ghost predicate ConsumedPrefix(s: seq<Order>, rest: seq<Order>, n: nat, traded: int) {
    n <= |s| &&
    var partial := traded - Total(s[..n]);
    if partial == 0 then rest == s[n..]
    else n < |s| && 0 < partial < s[n].qty && rest == [s[n].(qty := s[n].qty - partial)] + s[n + 1..]
  }

  lemma {:induction false} TotalHead(s: seq<Order>, n: nat)
    requires 0 < n <= |s|
    ensures Total(s[..n]) == s[0].qty + Total(s[1..][..n - 1])
  {
    assert s[..n][1..] == s[1..][..n - 1];
  }

  /** The sweep from f to r has consumed a prefix of n orders of the queue, at acceptable
      prices only, and perhaps part of the next; it quotes the price it touched last; and it
      stopped hungry only at the bound. */
  ghost predicate PrefixSwept(resting: Side, bound: Bound, f: Fill, r: Fill, n: nat) {
    && ConsumedPrefix(f.book, r.book, n, r.filled - f.filled)
    && (forall i :: 0 <= i < n ==> Crosses(resting, bound, f.book[i].price))
    && (r.filled - f.filled != Total(f.book[..n]) ==>
          Crosses(resting, bound, f.book[n].price) && r.left == 0 && r.price == f.book[n].price)
    && (r.filled - f.filled == Total(f.book[..n]) ==> r.price == if n == 0 then f.price else f.book[n - 1].price)
    && (r.left > 0 && r.book != [] ==> !Crosses(resting, bound, r.book[0].price))
  }

  /** A sweep eats a prefix of the queue, never skipping an order, and touches at most one
      order it does not finish. */
  lemma {:induction false} SweepTakesPrefix(resting: Side, bound: Bound, f: Fill) returns (n: nat)
    requires NonNegative(f.book)
    ensures PrefixSwept(resting, bound, f, Sweep(resting, bound, f), n)
    decreases |f.book|
  {
    if f.left <= 0 || f.book == [] || !Crosses(resting, bound, f.book[0].price) {
      n := 0;
    } else {
      var best := f.book[0];
      var m := Min(f.left, best.qty);
      if m == best.qty {
        var g := Fill(f.book[1..], f.left - m, f.filled + m, best.price);
        var k := SweepTakesPrefix(resting, bound, g);
        n := k + 1;
        PrefixSweptOnward(resting, bound, f, g, Sweep(resting, bound, g), k);
      } else {
        n := 0;
        assert f.book[..0] == [];
      }
    }
  }

  lemma PrefixSweptOnward(resting: Side, bound: Bound, f: Fill, g: Fill, r: Fill, k: nat)
    requires f.book != [] && Crosses(resting, bound, f.book[0].price)
    requires g.book == f.book[1..] && g.filled == f.filled + f.book[0].qty && g.price == f.book[0].price
    requires PrefixSwept(resting, bound, g, r, k)
    ensures PrefixSwept(resting, bound, f, r, k + 1)
  {
    PrefixShift(f.book, r.book, k, r.filled - g.filled);
    assert forall i :: 0 < i < |f.book| ==> f.book[i] == f.book[1..][i - 1];
  }

  lemma PrefixShift(s: seq<Order>, rest: seq<Order>, k: nat, traded: int)
    requires s != [] && ConsumedPrefix(s[1..], rest, k, traded)
    ensures ConsumedPrefix(s, rest, k + 1, s[0].qty + traded)
    ensures Total(s[..k + 1]) == s[0].qty + Total(s[1..][..k])
  {
    TotalHead(s, k + 1);
    assert s[1..][k..] == s[k + 1..];
    if k < |s[1..]| {
      assert s[1..][k + 1..] == s[k + 2..];
    }
  }

  /** The order at this position traded: it is one of the n consumed, or the next one and
      traded in part. */
  ghost predicate Traded(f: Fill, r: Fill, n: nat, i: nat) {
    && n <= |f.book|
    && (i < n || (i == n && r.filled - f.filled != Total(f.book[..n])))
  }

  /** The reported price is the worst traded one: it is the price of an order that traded, and
      nothing that traded ranks behind it. */
  lemma SweepReportsWorstPrice(resting: Side, bound: Bound, f: Fill) returns (n: nat)
    requires SortedByPrice(resting, f.book) && AllLive(f.book)
    ensures var r := Sweep(resting, bound, f);
            && ConsumedPrefix(f.book, r.book, n, r.filled - f.filled)
            && (forall i: nat :: Traded(f, r, n, i) ==>
                  i < |f.book| && Rank(resting, f.book[i].price) <= Rank(resting, r.price))
            && (r.filled == f.filled <==> forall i: nat :: !Traded(f, r, n, i))
            && (r.filled == f.filled ==> r.price == f.price)
            && (r.filled != f.filled ==>
                  exists i: nat :: Traded(f, r, n, i) && i < |f.book| && f.book[i].price == r.price)
  {
    n := SweepTakesPrefix(resting, bound, f);
    var r := Sweep(resting, bound, f);
    TotalPositive(f.book[..n]);
    if r.filled - f.filled != Total(f.book[..n]) {
      assert Traded(f, r, n, n) && f.book[n].price == r.price;
    } else if n > 0 {
      assert Traded(f, r, n, n - 1) && f.book[n - 1].price == r.price;
    }
  }

  lemma {:induction false} TotalPositive(s: seq<Order>)
    requires AllLive(s)
    ensures 0 <= Total(s) && (Total(s) == 0 <==> s == [])
  {
    if s != [] {
      TotalPositive(s[1..]);
    }
  }

  /** The price a sweep reports is its starting price or an acceptable one. */
  lemma {:induction false} SweepPriceAcceptable(resting: Side, bound: Bound, f: Fill)
    ensures var p := Sweep(resting, bound, f).price; p == f.price || Crosses(resting, bound, p)
    decreases |f.book|
  {
    if !(f.left <= 0 || f.book == [] || !Crosses(resting, bound, f.book[0].price)) {
      var best := f.book[0];
      var m := Min(f.left, best.qty);
      if m == best.qty {
        SweepPriceAcceptable(resting, bound, Fill(f.book[1..], f.left - m, f.filled + m, best.price));
      }
    }
  }

  // ---------- What a sweep, a placement and a removal keep ----------

  /** Every order left by a sweep was there before, with the same id, price and time: the
      sweep leaves a suffix, of which only the head may have shrunk. */
  predicate SuffixOf(s: seq<Order>, rest: seq<Order>) {
    var d := |s| - |rest|;
    && 0 <= d
    && (forall i :: 0 < i < |rest| ==> rest[i] == s[d + i])
    && (rest != [] ==> rest[0] == s[d].(qty := rest[0].qty) && rest[0].qty <= s[d].qty)
    && (rest != [] && rest[0] != s[d] ==> 0 < rest[0].qty)
  }

  lemma SweepLeavesSuffix(resting: Side, bound: Bound, f: Fill)
    requires NonNegative(f.book)
    ensures SuffixOf(f.book, Sweep(resting, bound, f).book)
  {
    var n := SweepTakesPrefix(resting, bound, f);
    var r := Sweep(resting, bound, f);
    var partial := r.filled - f.filled - Total(f.book[..n]);
    if partial != 0 {
      forall i | 0 < i < |r.book|
        ensures r.book[i] == f.book[n + i]
      {
        assert r.book[i] == f.book[n + 1..][i - 1];
      }
    }
  }

  /** No quantity appears or vanishes in a sweep: what leaves the book reaches the taker. */
  lemma {:induction false} SweepBalances(resting: Side, bound: Bound, f: Fill)
    requires NonNegative(f.book)
    ensures var r := Sweep(resting, bound, f);
            && r.filled + Total(r.book) == f.filled + Total(f.book)
            && r.filled + r.left == f.filled + f.left
            && (f.left > 0 ==> f.filled <= r.filled && 0 <= r.left)
            && (f.left <= 0 ==> r == f)
    decreases |f.book|
  {
    if !(f.left <= 0 || f.book == [] || !Crosses(resting, bound, f.book[0].price)) {
      var best := f.book[0];
      var m := Min(f.left, best.qty);
      if m == best.qty {
        var g := Fill(f.book[1..], f.left - m, f.filled + m, best.price);
        SweepBalances(resting, bound, g);
      } else {
        assert ([best.(qty := best.qty - m)] + f.book[1..])[1..] == f.book[1..];
      }
    }
  }

  lemma {:induction false} PlaceAt(resting: Side, s: seq<Order>, o: Order) returns (k: nat)
    requires SortedByPrice(resting, s)
    ensures k <= |s| && Place(resting, s, o) == s[..k] + [o] + s[k..]
    ensures forall i :: 0 <= i < |s| ==> (i < k <==> Rank(resting, s[i].price) <= Rank(resting, o.price))
  {
    if s == [] || Rank(resting, o.price) < Rank(resting, s[0].price) {
      k := 0;
    } else {
      var j := PlaceAt(resting, s[1..], o);
      k := j + 1;
      assert s[..k] == [s[0]] + s[1..][..j] && s[1..][j..] == s[k..];
      assert forall i :: 0 < i < |s| ==> s[i] == s[1..][i - 1];
    }
  }

  lemma {:induction false} TotalConcat(a: seq<Order>, b: seq<Order>)
    ensures Total(a + b) == Total(a) + Total(b)
  {
    if a == [] {
      assert a + b == b;
    } else {
      TotalConcat(a[1..], b);
      assert (a + b)[1..] == a[1..] + b;
    }
  }

  lemma TotalInserted(s: seq<Order>, k: nat, o: Order)
    requires k <= |s|
    ensures Total(s[..k] + [o] + s[k..]) == Total(s) + o.qty
  {
    var a, b := s[..k], s[k..];
    assert s == a + b;
    TotalConcat(a, b);
    TotalConcat(a, [o]);
    TotalConcat(a + [o], b);
    assert Total([o]) == o.qty;
  }

  /** The quantity resting under an id: that of the first order carrying it. */
  function QtyOf(s: seq<Order>, id: string): int {
    if s == [] then 0 else if s[0].id == id then s[0].qty else QtyOf(s[1..], id)
  }

  /** Removal takes out the first carrier of the id and nothing else. */
  lemma {:induction false} RemoveAt(s: seq<Order>, id: string) returns (k: nat)
    requires HasId(s, id)
    ensures k < |s| && s[k].id == id && Remove(s, id) == s[..k] + s[k + 1..]
    ensures forall i :: 0 <= i < k ==> s[i].id != id
  {
    if s[0].id == id {
      k := 0;
    } else {
      HasIdBeyond(s, id);
      var j := RemoveAt(s[1..], id);
      k := j + 1;
      WithoutBeyond(s, j);
      forall i | 0 <= i < k ensures s[i].id != id {
        assert i == 0 || s[i] == s[1..][i - 1];
      }
    }
  }

  lemma WithoutBeyond(s: seq<Order>, j: nat)
    requires j + 1 < |s|
    ensures [s[0]] + (s[1..][..j] + s[1..][j + 1..]) == s[..j + 1] + s[j + 2..]
  {
  }

  lemma HasIdBeyond(s: seq<Order>, id: string)
    requires HasId(s, id) && s[0].id != id
    ensures HasId(s[1..], id)
  {
    var i :| 0 <= i < |s| && s[i].id == id;
    assert s[1..][i - 1].id == id;
  }

  lemma {:induction false} RemoveBalances(s: seq<Order>, id: string)
    requires HasId(s, id)
    ensures Total(Remove(s, id)) == Total(s) - QtyOf(s, id)
  {
    if s[0].id != id {
      HasIdBeyond(s, id);
      RemoveBalances(s[1..], id);
      assert ([s[0]] + Remove(s[1..], id))[1..] == Remove(s[1..], id);
    }
  }

  predicate DistinctIds(s: seq<Order>) {
    forall i, j :: 0 <= i < j < |s| ==> s[i].id != s[j].id
  }

  predicate DistinctStamps(s: seq<Order>) {
    forall i, j :: 0 <= i < j < |s| ==> s[i].ts != s[j].ts
  }

  predicate HasStamp(s: seq<Order>, ts: Stamp) {
    exists i :: 0 <= i < |s| && s[i].ts == ts
  }

  /** Of a queue s of which a suffix remains, the order at this position is gone. */
  predicate Gone(s: seq<Order>, rest: seq<Order>, i: nat) {
    i < |s| - |rest|
  }

  /** It is gone, or does not stand as it stood. */
  predicate Touched(s: seq<Order>, rest: seq<Order>, i: nat)
    requires SuffixOf(s, rest) && i < |s|
  {
    Gone(s, rest, i) || rest[i - (|s| - |rest|)] != s[i]
  }

  /** Price-time priority: as soon as a taker has touched an order, every order ahead of it in
      the queue is gone. */
  lemma PriceTimePriority(resting: Side, bound: Bound, f: Fill, i: nat, j: nat)
    requires NonNegative(f.book) && i < j < |f.book|
    ensures var rest := Sweep(resting, bound, f).book;
            && SuffixOf(f.book, rest)
            && (Touched(f.book, rest, j) ==> Gone(f.book, rest, i))
            && (Gone(f.book, rest, i) && DistinctStamps(f.book) ==> !HasStamp(rest, f.book[i].ts))
  {
    SweepLeavesSuffix(resting, bound, f);
    SuffixIds(f.book, Sweep(resting, bound, f).book);
  }

  lemma SuffixIds(s: seq<Order>, rest: seq<Order>)
    requires SuffixOf(s, rest)
    ensures forall k :: 0 <= k < |rest| ==> rest[k] == s[|s| - |rest| + k].(qty := rest[k].qty)
  {
  }
}
