/** Why lazy cancellation is sound: entries cancelled in place, ghosts, are invisible to every
    request but for the price a sweep reports, as long as no id is used again. */
module LazyCancellation {
  import opened PriceTimeBook
  import opened TimedQueue
  import opened HeapBook
  import opened LazyQueueBook
  import Vectors = SortedVectorBook

  /** The live orders of a queue. */
  function LiveOf(s: seq<Order>): seq<Order> {
    if s == [] then [] else if s[0].qty > 0 then [s[0]] + LiveOf(s[1..]) else LiveOf(s[1..])
  }

  function Live(b: Book): Book {
    Book(LiveOf(b.bids), LiveOf(b.asks))
  }

  // ---------- Sweeps ----------

  lemma {:induction false} LiveOfMembers(s: seq<Order>)
    ensures forall i :: 0 <= i < |LiveOf(s)| ==> LiveOf(s)[i] in s && LiveOf(s)[i].qty > 0
  {
    if s != [] {
      LiveOfMembers(s[1..]);
    }
  }

  lemma {:induction false} LiveOfSorted(resting: Side, s: seq<Order>)
    requires SortedByPrice(resting, s)
    ensures SortedByPrice(resting, LiveOf(s))
  {
    if s != [] {
      LiveOfSorted(resting, s[1..]);
      LiveOfMembers(s[1..]);
      var t := LiveOf(s[1..]);
      forall i | 0 <= i < |t|
        ensures Rank(resting, s[0].price) <= Rank(resting, t[i].price)
      {
        assert t[i] in s[1..];
      }
    }
  }

  lemma LiveNotAhead(resting: Side, s: seq<Order>)
    requires SortedByPrice(resting, s) && s != []
    ensures LiveOf(s) != [] ==> Rank(resting, s[0].price) <= Rank(resting, LiveOf(s)[0].price)
  {
    LiveOfMembers(s);
    var live := LiveOf(s);
    if live != [] {
      var i :| 0 <= i < |s| && s[i] == live[0];
      assert Rank(resting, s[0].price) <= Rank(resting, s[i].price);
    }
  }

  lemma GhostTurn(resting: Side, bound: Bound, f: Fill)
    requires f.left > 0 && f.book != [] && Crosses(resting, bound, f.book[0].price) && f.book[0].qty == 0
    ensures Sweep(resting, bound, f)
            == Sweep(resting, bound, Fill(f.book[1..], f.left - f.book[0].qty, f.filled + f.book[0].qty,
                                         f.book[0].price))
    ensures LiveOf(f.book) == LiveOf(f.book[1..])
  {
  }

  lemma LiveTurn(resting: Side, bound: Bound, f: Fill, price: int)
    requires f.book != [] && Crosses(resting, bound, f.book[0].price) && 0 < f.book[0].qty <= f.left
    ensures var best := f.book[0];
            var g := Fill(f.book[1..], f.left - best.qty, f.filled + best.qty, best.price);
            && Sweep(resting, bound, f) == Sweep(resting, bound, g)
            && Sweep(resting, bound, Fill(LiveOf(f.book), f.left, f.filled, price))
               == Sweep(resting, bound, Fill(LiveOf(g.book), g.left, g.filled, best.price))
  {
    assert LiveOf(f.book)[1..] == LiveOf(f.book[1..]);
  }

  ghost predicate SweptAlike(r: Fill, l: Fill, hungry: bool) {
    && l.book == LiveOf(r.book) && l.left == r.left && l.filled == r.filled
    && (hungry && r.left <= 0 ==> l.price == r.price)
  }

  lemma StopsAlike(resting: Side, bound: Bound, f: Fill, price: int)
    requires SortedByPrice(resting, f.book) && NonNegative(f.book)
    requires f.left <= 0 || f.book == [] || !Crosses(resting, bound, f.book[0].price) || f.left < f.book[0].qty
    ensures SweptAlike(Sweep(resting, bound, f), Sweep(resting, bound, Fill(LiveOf(f.book), f.left, f.filled, price)),
                       f.left > 0)
  {
    if f.left <= 0 || f.book == [] {
    } else if !Crosses(resting, bound, f.book[0].price) {
      LiveNotAhead(resting, f.book);
    } else {
      PartialHead(f.book, f.left);
    }
  }

  /** A sweep over a queue with ghosts leaves the live orders that the same sweep over the
      live orders alone leaves, and fills the taker alike. A taker that is served in full is
      also quoted the same price. */
  lemma {:induction false} SweepIgnoresGhosts(resting: Side, bound: Bound, f: Fill, price: int)
    requires SortedByPrice(resting, f.book) && NonNegative(f.book)
    ensures SweptAlike(Sweep(resting, bound, f), Sweep(resting, bound, Fill(LiveOf(f.book), f.left, f.filled, price)),
                       f.left > 0)
    decreases |f.book|
  {
    if f.left <= 0 || f.book == [] || !Crosses(resting, bound, f.book[0].price) || f.left < f.book[0].qty {
      StopsAlike(resting, bound, f, price);
    } else {
      var best := f.book[0];
      var g := Fill(f.book[1..], f.left - best.qty, f.filled + best.qty, best.price);
      if best.qty == 0 {
        GhostTurn(resting, bound, f);
        SweepIgnoresGhosts(resting, bound, g, price);
      } else {
        LiveTurn(resting, bound, f, price);
        SweepIgnoresGhosts(resting, bound, g, best.price);
        if g.left == 0 {
          assert Sweep(resting, bound, g) == g;
        }
      }
    }
  }

  lemma PartialHead(s: seq<Order>, m: int)
    requires s != [] && m < s[0].qty && 0 <= m
    ensures LiveOf([s[0].(qty := s[0].qty - m)] + s[1..]) == [s[0].(qty := s[0].qty - m)] + LiveOf(s[1..])
    ensures LiveOf(s)[1..] == LiveOf(s[1..])
  {
    assert ([s[0].(qty := s[0].qty - m)] + s[1..])[1..] == s[1..];
  }

  /** The price of the last order at acceptable prices, p if there is none. */
  function LastAcceptable(resting: Side, bound: Bound, s: seq<Order>, p: int): int {
    if s == [] || !Crosses(resting, bound, s[0].price) then p
    else LastAcceptable(resting, bound, s[1..], s[0].price)
  }

  lemma {:induction false} HungrySweepPrice(resting: Side, bound: Bound, f: Fill)
    requires NonNegative(f.book) && Sweep(resting, bound, f).left > 0
    ensures Sweep(resting, bound, f).price == LastAcceptable(resting, bound, f.book, f.price)
    decreases |f.book|
  {
    if !(f.left <= 0 || f.book == [] || !Crosses(resting, bound, f.book[0].price)) {
      var best := f.book[0];
      var m := Min(f.left, best.qty);
      if m == best.qty {
        HungrySweepPrice(resting, bound, Fill(f.book[1..], f.left - m, f.filled + m, best.price));
      }
    }
  }

  /** Ghosts show in the quoted price exactly when the taker wants more than rests at acceptable
      prices and the last acceptable entry is priced otherwise than the last acceptable live one. */
  lemma {:induction false} GhostsShowInPriceIff(resting: Side, bound: Bound, q: seq<Order>, qty: int)
    requires SortedByPrice(resting, q) && NonNegative(q)
    ensures var r := Sweep(resting, bound, Fill(q, qty, 0, 0));
            var l := Sweep(resting, bound, Fill(LiveOf(q), qty, 0, 0));
            r.price == l.price <==>
              qty <= Depth(resting, bound, q)
              || LastAcceptable(resting, bound, q, 0) == LastAcceptable(resting, bound, LiveOf(q), 0)
  {
    var f, g := Fill(q, qty, 0, 0), Fill(LiveOf(q), qty, 0, 0);
    SweepIgnoresGhosts(resting, bound, f, 0);
    SweepFillsDepth(resting, bound, f);
    DepthNonNegative(resting, bound, q);
    LiveOfMembers(q);
    if Sweep(resting, bound, f).left > 0 {
      HungrySweepPrice(resting, bound, f);
      HungrySweepPrice(resting, bound, g);
    }
  }

  // ---------- Placement and cancellation ----------

  lemma LiveNotBefore(resting: Side, s: seq<Order>, o: Order)
    requires SortedByPriceTime(resting, s) && s != [] && !Before(resting, s[0], o)
    ensures LiveOf(s) != [] ==> !Before(resting, LiveOf(s)[0], o)
  {
    LiveOfMembers(s);
    var live := LiveOf(s);
    if live != [] {
      var i :| 0 <= i < |s| && s[i] == live[0];
      assert i > 0 ==> !Before(resting, s[i], s[0]);
    }
  }

  /** Queueing a new order among ghosts is queueing it among the live orders. */
  lemma {:induction false} InsertedAmongGhosts(resting: Side, s: seq<Order>, o: Order)
    requires SortedByPriceTime(resting, s) && o.qty > 0
    ensures LiveOf(Inserted(resting, s, o)) == Inserted(resting, LiveOf(s), o)
  {
    InsertedAtHead(resting, s, o);
    InsertedAtHead(resting, LiveOf(s), o);
    if s == [] {
    } else if !Before(resting, s[0], o) {
      assert ([o] + s)[1..] == s;
      LiveNotBefore(resting, s, o);
    } else {
      InsertedAmongGhosts(resting, s[1..], o);
      var t := Inserted(resting, s[1..], o);
      assert ([s[0]] + t)[1..] == t;
      assert s[0].qty > 0 ==> LiveOf(s)[1..] == LiveOf(s[1..]);
    }
  }

  /** Ids and time stamps name orders uniquely, within s and across. */
  predicate Distinct(s: seq<Order>) {
    forall i, j :: 0 <= i < j < |s| ==> s[i].id != s[j].id && s[i].ts != s[j].ts
  }

  predicate Disjoint(s: seq<Order>, t: seq<Order>) {
    forall i, j :: 0 <= i < |s| && 0 <= j < |t| ==> s[i].id != t[j].id && s[i].ts != t[j].ts
  }

  predicate HasLive(s: seq<Order>, id: string, ts: Stamp) {
    exists i :: 0 <= i < |s| && s[i].id == id && s[i].ts == ts && s[i].qty > 0
  }

  lemma {:induction false} LiveOfHas(s: seq<Order>, id: string)
    ensures HasId(LiveOf(s), id) <==> exists i :: 0 <= i < |s| && s[i].id == id && s[i].qty > 0
  {
    if s != [] {
      var t := LiveOf(s[1..]);
      LiveOfHas(s[1..], id);
      if i :| 0 <= i < |s| && s[i].id == id && s[i].qty > 0 {
        if i == 0 {
          assert LiveOf(s)[0].id == id;
        } else {
          assert s[1..][i - 1] == s[i];
          var k :| 0 <= k < |t| && t[k].id == id;
          assert LiveOf(s)[if s[0].qty > 0 then k + 1 else k].id == id;
        }
      }
    }
  }

  /** Zeroing the order with a time stamp removes it, by its id, from the live ones. */
  lemma {:induction false} ZeroedIsRemoved(s: seq<Order>, id: string, ts: Stamp)
    requires Distinct(s) && HasLive(s, id, ts)
    ensures LiveOf(Zeroed(s, ts)) == Remove(LiveOf(s), id)
  {
    var z := Zeroed(s, ts);
    assert z[1..] == Zeroed(s[1..], ts);
    var i :| 0 <= i < |s| && s[i].id == id && s[i].ts == ts && s[i].qty > 0;
    if i == 0 {
      ZeroedElsewhere(s[1..], ts);
      assert LiveOf(s)[1..] == LiveOf(s[1..]);
    } else {
      assert s[1..][i - 1].id == id;
      ZeroedIsRemoved(s[1..], id, ts);
      assert s[0].qty > 0 ==> LiveOf(s)[1..] == LiveOf(s[1..]);
    }
  }

  lemma ZeroedElsewhere(s: seq<Order>, ts: Stamp)
    requires forall i :: 0 <= i < |s| ==> s[i].ts != ts
    ensures Zeroed(s, ts) == s
  {
  }

  // ---------- The dictionary holds exactly the live orders ----------

  predicate Covers(index: map<string, Stamp>, s: seq<Order>) {
    forall i :: 0 <= i < |s| && s[i].qty > 0 ==> s[i].id in index && index[s[i].id] == s[i].ts
  }

  predicate Leads(index: map<string, Stamp>, s: seq<Order>, t: seq<Order>) {
    forall id :: id in index ==> HasLive(s, id, index[id]) || HasLive(t, id, index[id])
  }

  predicate Exact(index: map<string, Stamp>, s: seq<Order>, t: seq<Order>) {
    && Distinct(s) && Distinct(t) && Disjoint(s, t)
    && Covers(index, s) && Covers(index, t) && Leads(index, s, t)
  }

  lemma ExactSymmetric(index: map<string, Stamp>, s: seq<Order>, t: seq<Order>)
    requires Exact(index, s, t)
    ensures Exact(index, t, s)
  {
  }

  lemma SweptLeads(index: map<string, Stamp>, q: seq<Order>, rest: seq<Order>, t: seq<Order>)
    requires Leads(index, q, t) && SuffixOf(q, rest)
    ensures Leads(DropIds(index, q[..|q| - |rest|]), rest, t)
  {
    var d := |q| - |rest|;
    SuffixIds(q, rest);
    forall i | 0 <= i < d
      ensures HasId(q[..d], q[i].id)
    {
      assert q[..d][i] == q[i];
    }
    forall id | id in DropIds(index, q[..d]) && !HasLive(t, id, index[id])
      ensures HasLive(rest, id, index[id])
    {
      var i :| 0 <= i < |q| && q[i].id == id && q[i].ts == index[id] && q[i].qty > 0;
      assert rest[i - d].id == id && rest[i - d].ts == index[id] && rest[i - d].qty > 0;
    }
  }

  lemma SweptCovers(index: map<string, Stamp>, q: seq<Order>, rest: seq<Order>, t: seq<Order>)
    requires Distinct(q) && Disjoint(q, t) && Covers(index, q) && Covers(index, t) && SuffixOf(q, rest)
    ensures var left := DropIds(index, q[..|q| - |rest|]); Covers(left, rest) && Covers(left, t)
  {
    var d := |q| - |rest|;
    SuffixIds(q, rest);
    forall i | 0 <= i < |rest|
      ensures !HasId(q[..d], rest[i].id)
    {
      assert rest[i].id == q[d + i].id;
    }
    forall j | 0 <= j < |t|
      ensures !HasId(q[..d], t[j].id)
    {
    }
  }

  lemma SweptExact(index: map<string, Stamp>, q: seq<Order>, rest: seq<Order>, t: seq<Order>)
    requires Exact(index, q, t) && SuffixOf(q, rest)
    ensures Exact(DropIds(index, q[..|q| - |rest|]), rest, t)
  {
    SweptLeads(index, q, rest, t);
    SweptCovers(index, q, rest, t);
    DistinctSuffix(q, rest, t);
  }

  lemma DistinctSuffix(q: seq<Order>, rest: seq<Order>, t: seq<Order>)
    requires Distinct(q) && Disjoint(q, t) && SuffixOf(q, rest)
    ensures Distinct(rest) && Disjoint(rest, t)
  {
    SuffixIds(q, rest);
    var d := |q| - |rest|;
    forall i, j | 0 <= i < j < |rest|
      ensures rest[i].id != rest[j].id && rest[i].ts != rest[j].ts
    {
      assert q[d + i].id != q[d + j].id && q[d + i].ts != q[d + j].ts;
    }
    forall i, j | 0 <= i < |rest| && 0 <= j < |t|
      ensures rest[i].id != t[j].id && rest[i].ts != t[j].ts
    {
      assert q[d + i].id != t[j].id && q[d + i].ts != t[j].ts;
    }
  }

  lemma PlacedDistinct(s: seq<Order>, t: seq<Order>, k: nat, o: Order)
    requires Distinct(s) && Disjoint(s, t) && k <= |s|
    requires !HasStamp(s, o.ts) && !HasStamp(t, o.ts)
    requires !HasId(s, o.id) && !HasId(t, o.id)
    ensures Distinct(s[..k] + [o] + s[k..]) && Disjoint(s[..k] + [o] + s[k..], t)
  {
    var r := s[..k] + [o] + s[k..];
    assert forall i :: 0 <= i < |r| ==> r[i] == if i < k then s[i] else if i == k then o else s[i - 1];
  }

  lemma PlacedCovers(index: map<string, Stamp>, s: seq<Order>, t: seq<Order>, k: nat, o: Order)
    requires Covers(index, s) && Covers(index, t) && Leads(index, s, t) && k <= |s| && o.qty > 0
    requires !HasId(s, o.id) && !HasId(t, o.id)
    ensures var grown, r := index[o.id := o.ts], s[..k] + [o] + s[k..];
            Covers(grown, r) && Covers(grown, t) && Leads(grown, r, t)
  {
    var r := s[..k] + [o] + s[k..];
    var grown := index[o.id := o.ts];
    assert forall i :: 0 <= i < |r| ==> r[i] == if i < k then s[i] else if i == k then o else s[i - 1];
    forall id | id in grown
      ensures HasLive(r, id, grown[id]) || HasLive(t, id, grown[id])
    {
      if id == o.id {
        assert r[k].id == id;
      } else if HasLive(s, id, index[id]) {
        var i :| 0 <= i < |s| && s[i].id == id && s[i].ts == index[id] && s[i].qty > 0;
        assert r[if i < k then i else i + 1] == s[i];
      }
    }
  }

  lemma PlacedExact(index: map<string, Stamp>, s: seq<Order>, t: seq<Order>, k: nat, o: Order)
    requires Exact(index, s, t) && k <= |s| && o.qty > 0
    requires !HasStamp(s, o.ts) && !HasStamp(t, o.ts)
    requires !HasId(s, o.id) && !HasId(t, o.id)
    ensures Exact(index[o.id := o.ts], s[..k] + [o] + s[k..], t)
  {
    PlacedDistinct(s, t, k, o);
    PlacedCovers(index, s, t, k, o);
  }

  lemma ZeroedExact(index: map<string, Stamp>, s: seq<Order>, t: seq<Order>, id: string)
    requires Exact(index, s, t) && id in index
    ensures Exact(index - {id}, Zeroed(s, index[id]), Zeroed(t, index[id]))
  {
    var ts := index[id];
    var less := index - {id};
    forall other | other in less
      ensures HasLive(Zeroed(s, ts), other, less[other]) || HasLive(Zeroed(t, ts), other, less[other])
    {
      StampsNameIds(index, s, t, id, other);
      if HasLive(s, other, index[other]) {
        var i :| 0 <= i < |s| && s[i].id == other && s[i].ts == index[other] && s[i].qty > 0;
        assert Zeroed(s, ts)[i] == s[i];
      } else {
        var i :| 0 <= i < |t| && t[i].id == other && t[i].ts == index[other] && t[i].qty > 0;
        assert Zeroed(t, ts)[i] == t[i];
      }
    }
    ZeroedCovers(index, s, t, id);
    ExactSymmetric(index, s, t);
    ZeroedCovers(index, t, s, id);
  }

  lemma StampsNameIds(index: map<string, Stamp>, s: seq<Order>, t: seq<Order>, id: string, other: string)
    requires Exact(index, s, t) && id in index && other in index && id != other
    ensures index[id] != index[other]
  {
  }

  lemma ZeroedCovers(index: map<string, Stamp>, s: seq<Order>, t: seq<Order>, id: string)
    requires Exact(index, s, t) && id in index
    ensures Covers(index - {id}, Zeroed(s, index[id]))
  {
    var z := Zeroed(s, index[id]);
    forall i | 0 <= i < |z| && z[i].qty > 0
      ensures z[i].id != id
    {
      assert z[i] == s[i];
    }
  }

  // ---------- One request ----------

  predicate ExactBook(b: Lazy) {
    Timely(b.book) && Exact(b.index, b.book.bids, b.book.asks)
  }

  /** Equal acknowledgements but for the quoted price. */
  predicate SameFill(a: Ack, b: Ack) {
    a.id == b.id && a.status == b.status && a.fillQty == b.fillQty
  }

  lemma ExactParts(bids: seq<Order>, asks: seq<Order>, index: map<string, Stamp>)
    requires Timely(Book(bids, asks)) && Exact(index, bids, asks)
    ensures ExactBook(Lazy(Book(bids, asks), index))
  {
  }

  lemma BidsSwept(b: Lazy, f: Fill)
    requires |f.book| <= |b.book.bids|
    ensures Swept(b, Buy, f)
            == Lazy(Book(f.book, b.book.asks), DropIds(b.index, b.book.bids[..|b.book.bids| - |f.book|]))
  {
  }

  lemma AsksSwept(b: Lazy, f: Fill)
    requires |f.book| <= |b.book.asks|
    ensures Swept(b, Sell, f)
            == Lazy(Book(b.book.bids, f.book), DropIds(b.index, b.book.asks[..|b.book.asks| - |f.book|]))
  {
  }

  lemma BidsStayExact(bids: seq<Order>, asks: seq<Order>, index: map<string, Stamp>, rest: seq<Order>)
    requires Timely(Book(bids, asks)) && Exact(index, bids, asks) && SuffixOf(bids, rest)
    ensures ExactBook(Lazy(Book(rest, asks), DropIds(index, bids[..|bids| - |rest|])))
  {
    SuffixStaysTimed(Buy, bids, rest);
    SweptExact(index, bids, rest, asks);
    ExactParts(rest, asks, DropIds(index, bids[..|bids| - |rest|]));
  }

  lemma AsksStayExact(bids: seq<Order>, asks: seq<Order>, index: map<string, Stamp>, rest: seq<Order>)
    requires Timely(Book(bids, asks)) && Exact(index, bids, asks) && SuffixOf(asks, rest)
    ensures ExactBook(Lazy(Book(bids, rest), DropIds(index, asks[..|asks| - |rest|])))
  {
    SuffixStaysTimed(Sell, asks, rest);
    SweptExactAsks(index, bids, asks, rest);
    ExactParts(bids, rest, DropIds(index, asks[..|asks| - |rest|]));
  }

  lemma {:induction false} SweptStaysExact(b: Lazy, resting: Side, f: Fill)
    requires ExactBook(b) && SuffixOf(b.book.Of(resting), f.book)
    ensures ExactBook(Swept(b, resting, f))
  {
    hide Swept, Exact, Timely, DropIds;
    if resting == Buy {
      BidsStayExact(b.book.bids, b.book.asks, b.index, f.book);
      BidsSwept(b, f);
    } else {
      AsksStayExact(b.book.bids, b.book.asks, b.index, f.book);
      AsksSwept(b, f);
    }
  }

  lemma SweptExactAsks(index: map<string, Stamp>, bids: seq<Order>, asks: seq<Order>, rest: seq<Order>)
    requires Exact(index, bids, asks) && SuffixOf(asks, rest)
    ensures Exact(DropIds(index, asks[..|asks| - |rest|]), bids, rest)
  {
    ExactSymmetric(index, bids, asks);
    SweptExact(index, asks, rest, bids);
    ExactSymmetric(DropIds(index, asks[..|asks| - |rest|]), rest, bids);
  }

  lemma TakeAgrees(b: Lazy, side: Side, bound: Bound, qty: int)
    requires ExactBook(b)
    ensures var f := Take(b.book, side, bound, qty);
            var g := Take(Live(b.book), side, bound, qty);
            var swept := Swept(b, Opposite(side), f);
            && f.left == g.left && f.filled == g.filled
            && ExactBook(swept)
            && Live(swept.book) == Live(b.book).With(Opposite(side), g.book)
  {
    var resting := Opposite(side);
    var f := Fill(b.book.Of(resting), qty, 0, 0);
    TimelyIsOrdered(b.book);
    SweepLeavesSuffix(resting, bound, f);
    SweptStaysExact(b, resting, Sweep(resting, bound, f));
    SweepIgnoresGhosts(resting, bound, f, 0);
    assert Live(b.book).Of(resting) == LiveOf(f.book);
  }

  predicate Unused(b: Book, id: string, ts: Stamp) {
    !HasId(b.bids, id) && !HasId(b.asks, id) && !HasStamp(b.bids, ts) && !HasStamp(b.asks, ts)
  }

  lemma RestedAgrees(b: Lazy, side: Side, o: Order)
    requires ExactBook(b) && o.qty > 0 && Unused(b.book, o.id, o.ts)
    ensures ExactBook(Rested(b, side, o))
    ensures Live(Rested(b, side, o).book) == Live(b.book).With(side, Inserted(side, Live(b.book).Of(side), o))
  {
    var s := b.book.Of(side);
    var k := LowerBound(side, s, o);
    InsertedAround(side, s, o);
    InsertedAmongGhosts(side, s, o);
    if side == Buy {
      PlacedExact(b.index, s, b.book.asks, k, o);
    } else {
      ExactSymmetric(b.index, b.book.bids, s);
      PlacedExact(b.index, s, b.book.bids, k, o);
      ExactSymmetric(b.index[o.id := o.ts], Inserted(side, s, o), b.book.bids);
    }
  }

  /** The dictionary finds an id exactly when a search of the live orders does, bids first. */
  lemma LookupAgrees(index: map<string, Stamp>, bids: seq<Order>, asks: seq<Order>, id: string)
    requires Exact(index, bids, asks)
    ensures id in index <==> HasId(LiveOf(bids), id) || HasId(LiveOf(asks), id)
    ensures id in index ==> (HasId(LiveOf(bids), id) <==> HasLive(bids, id, index[id]))
    ensures id in index ==> (HasId(LiveOf(asks), id) <==> HasLive(asks, id, index[id]))
  {
    LiveOfHas(bids, id);
    LiveOfHas(asks, id);
  }

  lemma StampOnOneSide(s: seq<Order>, t: seq<Order>, id: string, ts: Stamp)
    requires Disjoint(s, t) && HasLive(s, id, ts)
    ensures Zeroed(t, ts) == t && !HasLive(t, id, ts)
  {
    ZeroedElsewhere(t, ts);
  }

  lemma CancelAgrees(b: Lazy, id: string, now: Stamp)
    requires ExactBook(b)
    ensures var r := LazyStep(b, Cancel(id), now);
            var l := Step(Live(b.book), Cancel(id), now);
            ExactBook(r.lazy) && Live(r.lazy.book) == l.book && r.ack == l.ack
  {
    LookupAgrees(b.index, b.book.bids, b.book.asks, id);
    if id in b.index {
      ZeroedExact(b.index, b.book.bids, b.book.asks, id);
      ZeroedTimely(b.book, b.index[id]);
      ZeroedAgrees(b.index, b.book.bids, b.book.asks, id);
    }
  }

  lemma ZeroedTimely(b: Book, ts: Stamp)
    requires Timely(b)
    ensures Timely(Book(Zeroed(b.bids, ts), Zeroed(b.asks, ts)))
  {
  }

  lemma ZeroedAgrees(index: map<string, Stamp>, bids: seq<Order>, asks: seq<Order>, id: string)
    requires Exact(index, bids, asks) && id in index
    ensures LiveOf(Zeroed(bids, index[id]))
            == if HasLive(bids, id, index[id]) then Remove(LiveOf(bids), id) else LiveOf(bids)
    ensures LiveOf(Zeroed(asks, index[id]))
            == if HasLive(bids, id, index[id]) then LiveOf(asks) else Remove(LiveOf(asks), id)
  {
    var ts := index[id];
    if HasLive(bids, id, ts) {
      ZeroedIsRemoved(bids, id, ts);
      StampOnOneSide(bids, asks, id, ts);
    } else {
      ExactSymmetric(index, bids, asks);
      ZeroedIsRemoved(asks, id, ts);
      StampOnOneSide(asks, bids, id, ts);
    }
  }

  /** From any exact book, the Python engine does to its live orders what the C++ engine does
      to its orders, acknowledges alike, and stays exact, whatever the request, provided a
      limit order brings an id and a clock reading that no entry, live or ghost, carries. */
  lemma {:induction false} LazyStepAgrees(b: Lazy, r: Request, now: Stamp)
    requires ExactBook(b)
    requires r.Limit? ==> Unused(b.book, r.id, now)
    ensures var p := LazyStep(b, r, now);
            var l := Vectors.EngineStep(Live(b.book), r, now);
            ExactBook(p.lazy) && Live(p.lazy.book) == l.book && SameFill(p.ack, l.ack)
  {
    match r
    case Limit(id, side, price, qty) =>
      TakeAgrees(b, side, AtLimit(price), qty);
      var f := Take(b.book, side, AtLimit(price), qty);
      if f.left > 0 {
        TimelyIsOrdered(b.book);
        SweptUnused(b, side, AtLimit(price), qty, id, now);
        RestedAgrees(Swept(b, Opposite(side), f), side, Order(id, price, f.left, now));
      }
    case Market(id, side, qty) =>
      TakeAgrees(b, side, AtMarket, qty);
    case Cancel(id) =>
      CancelAgrees(b, id, now);
  }

  lemma SweptUnused(b: Lazy, side: Side, bound: Bound, qty: int, id: string, ts: Stamp)
    requires Ordered(b.book) && Unused(b.book, id, ts)
    ensures Unused(Swept(b, Opposite(side), Take(b.book, side, bound, qty)).book, id, ts)
  {
    var f := Fill(b.book.Of(Opposite(side)), qty, 0, 0);
    SweepLeavesSuffix(Opposite(side), bound, f);
    SuffixIds(f.book, Sweep(Opposite(side), bound, f).book);
  }
}
