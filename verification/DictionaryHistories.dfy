/** Over whole histories: the dictionary stays exact exactly as long as no request breaks it, and
    with fresh ids none ever does. */
module DictionaryHistories {
  import opened PriceTimeBook
  import opened BookHeap
  import opened HeapBook
  import opened HeapSweeps
  import opened Histories
  import opened DictionaryExact

  // ---------- One request ----------

  /** What the condition on a request is: the sweep pops no entry sharing its id with a live
      entry that stays, and what is left to rest meets no live entry of its id. */
  ghost predicate Safe(b: Lazy, r: Request) {
    match r
    case Limit(id, side, price, qty) =>
      var h := HeapTake(b.book, side, AtLimit(price), qty);
      var m := Entries(HeapSwept(b, Opposite(side), h).book);
      !SharesId(h.popped, m) && (h.fill.left > 0 ==> !LiveIn(m, id))
    case Market(id, side, qty) =>
      var h := HeapTake(b.book, side, AtMarket, qty);
      !SharesId(h.popped, Entries(HeapSwept(b, Opposite(side), h).book))
    case Cancel(_) => true
  }

  lemma HeadShrunkIs(s: seq<Order>, r: seq<Order>, other: multiset<Order>)
    requires HeadShrunk(s, r)
    ensures OneShrunk(multiset(s) + other, multiset(r) + other)
  {
    if r != s {
      assert r == s[0 := r[0]];
      assert multiset(r) == multiset(s) - multiset{s[0]} + multiset{r[0]};
      assert s[0] in multiset(s);
      assert ShrinksTo(multiset(s) + other, s[0], r[0].qty, multiset(r) + other);
    }
  }

  lemma TakenEntries(b: Lazy, side: Side, bound: Bound, qty: int) returns (rest: multiset<Order>)
    ensures var h := HeapTake(b.book, side, bound, qty);
            && Entries(b.book) == multiset(h.popped) + rest
            && OneShrunk(rest, Entries(HeapSwept(b, Opposite(side), h).book))
  {
    hide HeapSweep, OneShrunk, HeadShrunk;
    var resting := Opposite(side);
    var s := SweepSplits(resting, bound, HeapFill(Fill(b.book.Of(resting), qty, 0, 0), []));
    var h := HeapTake(b.book, side, bound, qty);
    assert h.popped[0..] == h.popped;
    var other := multiset(b.book.Of(side));
    rest := multiset(s) + other;
    HeadShrunkIs(s, h.fill.book, other);
    assert Entries(HeapSwept(b, resting, h).book) == multiset(h.fill.book) + other;
    assert Entries(b.book) == multiset(b.book.Of(resting)) + other;
  }

  lemma RestedEntries(b: Lazy, side: Side, o: Order)
    ensures Entries(HeapRested(b, side, o).book) == Entries(b.book) + multiset{o}
  {
    hide HeapPush;
  }

  lemma TakenExactIff(b: Lazy, side: Side, bound: Bound, qty: int)
    requires DictExact(b)
    ensures var h := HeapTake(b.book, side, bound, qty);
            var c := HeapSwept(b, Opposite(side), h);
            DictExact(c) <==> !SharesId(h.popped, Entries(c.book))
  {
    hide ExactFor, HeapTake, OneShrunk, SharesId, Entries;
    var rest := TakenEntries(b, side, bound, qty);
    var h := HeapTake(b.book, side, bound, qty);
    SweepExactIff(b.index, Entries(b.book), h.popped, rest, Entries(HeapSwept(b, Opposite(side), h).book));
  }

  /** A request keeps the dictionary exact if and only if it is safe. */
  lemma StepExactIff(b: Lazy, r: Request, now: Stamp)
    requires DictExact(b) && Tagged(Entries(b.book)) && StampedUpTo(Entries(b.book), now.no)
    ensures DictExact(HeapStep(b, r, now).lazy) <==> Safe(b, r)
  {
    hide ExactFor, HeapTake, HeapPush, OneShrunk, SharesId, Entries, Tagged, StampedUpTo, LiveIn;
    match r
    case Limit(id, side, price, qty) =>
      TakenExactIff(b, side, AtLimit(price), qty);
      var h := HeapTake(b.book, side, AtLimit(price), qty);
      if h.fill.left > 0 {
        RestExactIff(b, side, AtLimit(price), qty, Order(id, price, h.fill.left, now));
      }
    case Market(id, side, qty) =>
      TakenExactIff(b, side, AtMarket, qty);
    case Cancel(id) =>
      if id in b.index {
        CancelExact(b.index, b.book, id);
      }
  }

  lemma RestExactIff(b: Lazy, side: Side, bound: Bound, qty: int, o: Order)
    requires DictExact(b) && StampedUpTo(Entries(b.book), o.ts.no) && o.qty > 0
    ensures var h := HeapTake(b.book, side, bound, qty);
            var c := HeapSwept(b, Opposite(side), h);
            DictExact(HeapRested(c, side, o))
            <==> !SharesId(h.popped, Entries(c.book)) && !LiveIn(Entries(c.book), o.id)
  {
    hide ExactFor, HeapTake, HeapPush, OneShrunk, Entries, LiveIn, HasId;
    var h := HeapTake(b.book, side, bound, qty);
    var c := HeapSwept(b, Opposite(side), h);
    var rest := TakenEntries(b, side, bound, qty);
    StampsShrunk(rest, Entries(c.book), o.ts.no);
    RestedEntries(c, side, o);
    if SharesId(h.popped, Entries(c.book)) {
      var e :| e in Entries(c.book) && e.qty > 0 && HasId(h.popped, e.id);
      Dropped(b.index, h.popped);
      PlacementNoCure(c.index, Entries(c.book), o, e);
    } else {
      TakenExactIff(b, side, bound, qty);
      PlacementExactIff(c.index, Entries(c.book), o);
    }
  }

  // ---------- Stamps tell entries apart, always ----------

  lemma StampsShrunk(m: multiset<Order>, n: multiset<Order>, k: nat)
    requires OneShrunk(m, n) && StampedUpTo(m, k)
    ensures StampedUpTo(n, k)
  {
    if n != m {
      var e, q :| ShrinksTo(m, e, q, n);
      forall o | o in n
        ensures o.ts.no < k
      {
        assert o == e.(qty := q) || o in m;
      }
    }
  }

  lemma TaggedShrunk(m: multiset<Order>, n: multiset<Order>)
    requires OneShrunk(m, n) && Tagged(m)
    ensures Tagged(n)
  {
    if n != m {
      var e, q :| ShrinksTo(m, e, q, n);
      TaggedReplaced(m, e, e.(qty := q));
    }
  }

  lemma TaggedReplaced(m: multiset<Order>, e: Order, x: Order)
    requires Tagged(m) && e in m && x.ts == e.ts
    ensures Tagged(m - multiset{e} + multiset{x})
  {
    var n := m - multiset{e} + multiset{x};
    assert x != e ==> x !in m;
    forall o | o in n
      ensures n[o] == 1 && (o == x || (o in m && o != e))
    {
    }
  }

  lemma TaggedPart(m: multiset<Order>, popped: multiset<Order>, rest: multiset<Order>)
    requires Tagged(m) && m == popped + rest
    ensures Tagged(rest)
  {
    forall o | o in rest
      ensures rest[o] == 1 && o in m
    {
      assert m[o] == popped[o] + rest[o] && o in m;
    }
  }

  lemma TaggedJoined(m: multiset<Order>, o: Order)
    requires Tagged(m) && StampedUpTo(m, o.ts.no)
    ensures Tagged(m + multiset{o}) && StampedUpTo(m + multiset{o}, o.ts.no + 1)
  {
    assert o !in m;
  }

  lemma Occurs(s: seq<Order>, o: Order)
    ensures o in s <==> multiset(s)[o] > 0
  {
  }

  lemma ZeroedOne(s: seq<Order>, e: Order)
    requires e in s && multiset(s)[e] == 1 && forall o :: o in s && o.ts == e.ts ==> o == e
    ensures multiset(Zeroed(s, e.ts)) == multiset(s) - multiset{e} + multiset{e.(qty := 0)}
  {
    var i :| 0 <= i < |s| && s[i] == e;
    assert s == s[..i] + [e] + s[i + 1..];
    assert e !in s[..i] && e !in s[i + 1..] by {
      assert multiset(s) == multiset(s[..i]) + multiset{e} + multiset(s[i + 1..]);
      Occurs(s[..i], e);
      Occurs(s[i + 1..], e);
    }
    forall j | 0 <= j < |s| && j != i
      ensures s[j].ts != e.ts
    {
      assert j < i ==> s[..i][j] == s[j];
      assert j > i ==> s[i + 1..][j - i - 1] == s[j];
    }
    assert Zeroed(s, e.ts) == s[i := e.(qty := 0)];
  }

  lemma ZeroedNone(s: seq<Order>, ts: Stamp)
    requires forall o :: o in s ==> o.ts != ts
    ensures Zeroed(s, ts) == s
  {
  }

  lemma ZeroedTagged(b: Book, ts: Stamp)
    requires Tagged(Entries(b))
    ensures Tagged(Entries(Book(Zeroed(b.bids, ts), Zeroed(b.asks, ts))))
  {
    hide Tagged, Zeroed;
    assert multiset(b.asks) + multiset(b.bids) == Entries(b);
    if e :| e in b.bids && e.ts == ts {
      ZeroedOn(b.bids, b.asks, e);
    } else {
      ZeroedNone(b.bids, ts);
      if e :| e in b.asks && e.ts == ts {
        ZeroedOn(b.asks, b.bids, e);
        assert multiset(Zeroed(b.asks, ts)) + multiset(b.bids) == multiset(b.bids) + multiset(Zeroed(b.asks, ts));
      } else {
        ZeroedNone(b.asks, ts);
      }
    }
  }

  lemma ZeroedOn(s: seq<Order>, t: seq<Order>, e: Order)
    requires Tagged(multiset(s) + multiset(t)) && e in s
    ensures Zeroed(t, e.ts) == t && Tagged(multiset(Zeroed(s, e.ts)) + multiset(t))
  {
    hide Zeroed;
    var m := multiset(s) + multiset(t);
    TaggedSides(s, t, e);
    ZeroedNone(t, e.ts);
    ZeroedOne(s, e);
    TaggedReplaced(m, e, e.(qty := 0));
    hide Tagged;
    assert m - multiset{e} + multiset{e.(qty := 0)} == multiset(Zeroed(s, e.ts)) + multiset(t);
  }

  lemma TaggedSides(s: seq<Order>, t: seq<Order>, e: Order)
    requires Tagged(multiset(s) + multiset(t)) && e in s
    ensures multiset(s)[e] == 1 && e in multiset(s) + multiset(t)
    ensures forall o :: o in s && o.ts == e.ts ==> o == e
    ensures forall o :: o in t ==> o.ts != e.ts
  {
    var m := multiset(s) + multiset(t);
    assert e in multiset(s) && m[e] == 1;
    forall o | o in t
      ensures o.ts != e.ts
    {
      assert o in multiset(t) && o in m;
    }
    forall o | o in s && o.ts == e.ts
      ensures o == e
    {
      assert o in multiset(s) && o in m;
    }
  }

  lemma ZeroedSource(b: Book, ts: Stamp, o: Order) returns (e: Order)
    requires o in Entries(Book(Zeroed(b.bids, ts), Zeroed(b.asks, ts)))
    ensures e in Entries(b) && o == e.(qty := o.qty)
  {
    if o in Zeroed(b.bids, ts) {
      e := ZeroedFrom(b.bids, ts, o);
    } else {
      assert o in multiset(Zeroed(b.asks, ts));
      e := ZeroedFrom(b.asks, ts, o);
    }
  }

  lemma ZeroedFrom(s: seq<Order>, ts: Stamp, o: Order) returns (e: Order)
    requires o in Zeroed(s, ts)
    ensures e in s && e in multiset(s) && o == e.(qty := o.qty)
  {
    var i :| 0 <= i < |s| && Zeroed(s, ts)[i] == o;
    e := s[i];
  }

  lemma ZeroedStamps(b: Book, ts: Stamp, n: nat)
    requires StampedUpTo(Entries(b), n)
    ensures StampedUpTo(Entries(Book(Zeroed(b.bids, ts), Zeroed(b.asks, ts))), n)
  {
    var c := Book(Zeroed(b.bids, ts), Zeroed(b.asks, ts));
    forall o | o in Entries(c)
      ensures o.ts.no < n
    {
      var e := ZeroedSource(b, ts, o);
    }
  }

  lemma StampsPart(m: multiset<Order>, popped: multiset<Order>, rest: multiset<Order>, n: nat)
    requires StampedUpTo(m, n) && m == popped + rest
    ensures StampedUpTo(rest, n)
  {
    forall o | o in rest
      ensures o.ts.no < n
    {
      assert o in m;
    }
  }

  lemma TakenTagged(b: Lazy, side: Side, bound: Bound, qty: int, n: nat)
    requires Tagged(Entries(b.book)) && StampedUpTo(Entries(b.book), n)
    ensures var c := HeapSwept(b, Opposite(side), HeapTake(b.book, side, bound, qty));
            Tagged(Entries(c.book)) && StampedUpTo(Entries(c.book), n)
  {
    hide HeapTake, Tagged, StampedUpTo, OneShrunk, Entries;
    var rest := TakenEntries(b, side, bound, qty);
    var h := HeapTake(b.book, side, bound, qty);
    TaggedPart(Entries(b.book), multiset(h.popped), rest);
    StampsPart(Entries(b.book), multiset(h.popped), rest, n);
    TaggedShrunk(rest, Entries(HeapSwept(b, Opposite(side), h).book));
    StampsShrunk(rest, Entries(HeapSwept(b, Opposite(side), h).book), n);
  }

  lemma StepTagged(b: Lazy, r: Request, now: Stamp)
    requires Tagged(Entries(b.book)) && StampedUpTo(Entries(b.book), now.no)
    ensures var c := HeapStep(b, r, now).lazy.book; Tagged(Entries(c)) && StampedUpTo(Entries(c), now.no + 1)
  {
    hide HeapTake, HeapPush, Tagged, Entries, Zeroed;
    match r
    case Limit(id, side, price, qty) =>
      TakenTagged(b, side, AtLimit(price), qty, now.no);
      var h := HeapTake(b.book, side, AtLimit(price), qty);
      var o := Order(id, price, h.fill.left, now);
      var c := HeapSwept(b, Opposite(side), h);
      RestedEntries(c, side, o);
      TaggedJoined(Entries(c.book), o);
    case Market(id, side, qty) =>
      TakenTagged(b, side, AtMarket, qty, now.no);
    case Cancel(id) =>
      if id in b.index {
        ZeroedTagged(b.book, b.index[id]);
        ZeroedStamps(b.book, b.index[id], now.no);
      }
  }

  lemma {:induction false} AlwaysTagged(es: seq<Event>)
    ensures Tagged(Entries(HeapState(es).book)) && StampedUpTo(Entries(HeapState(es).book), |es|)
  {
    hide HeapStep, Tagged, StampedUpTo, Entries;
    if es == [] {
      EmptyTagged();
    } else {
      AlwaysTagged(Front(es));
      StepTagged(HeapState(Front(es)), Last(es).req, Now(es));
    }
  }

  lemma EmptyTagged()
    ensures Tagged(Entries(EmptyBook)) && StampedUpTo(Entries(EmptyBook), 0)
  {
  }

  // ---------- Whole histories ----------

  /** The dictionary is exact now and was after every request before. */
  ghost predicate AlwaysExact(es: seq<Event>) {
    DictExact(HeapState(es)) && (es != [] ==> AlwaysExact(Front(es)))
  }

  ghost predicate AlwaysSafe(es: seq<Event>) {
    es != [] ==> AlwaysSafe(Front(es)) && Safe(HeapState(Front(es)), Last(es).req)
  }

  /** Over any history the dictionary holds exactly the live orders throughout if and only if
      every request is safe. */
  lemma {:induction false} DictionaryExactIff(es: seq<Event>)
    ensures AlwaysExact(es) <==> AlwaysSafe(es)
  {
    hide HeapStep, Tagged, StampedUpTo, Safe, DictExact;
    if es == [] {
      EmptyExact();
    } else {
      DictionaryExactIff(Front(es));
      AlwaysTagged(Front(es));
      if AlwaysExact(Front(es)) {
        StepExactIff(HeapState(Front(es)), Last(es).req, Now(es));
      }
    }
  }

  lemma EmptyExact()
    ensures DictExact(Lazy(EmptyBook, map[]))
  {
  }

  // ---------- Fresh ids are safe ----------

  /** An order placed by the k-th request. */
  predicate PlacedBy(es: seq<Event>, k: nat, o: Order) {
    && k < |es| && es[k].req.Limit? && o.id == es[k].req.id && o.price == es[k].req.price
    && o.ts == Stamp(es[k].now, k)
  }

  ghost predicate Introduced(es: seq<Event>, m: multiset<Order>) {
    forall o :: o in m ==> PlacedBy(es, o.ts.no, o)
  }

  lemma IntroducedLater(es: seq<Event>, m: multiset<Order>)
    requires es != [] && Introduced(Front(es), m)
    ensures Introduced(es, m)
  {
    forall o | o in m
      ensures PlacedBy(es, o.ts.no, o)
    {
      assert PlacedBy(Front(es), o.ts.no, o);
    }
  }

  lemma IntroducedShrunk(es: seq<Event>, m: multiset<Order>, n: multiset<Order>)
    requires OneShrunk(m, n) && Introduced(es, m)
    ensures Introduced(es, n)
  {
    if n != m {
      var e, q :| ShrinksTo(m, e, q, n);
      forall o | o in n
        ensures PlacedBy(es, o.ts.no, o)
      {
        assert o == e.(qty := q) || o in m;
        assert PlacedBy(es, e.ts.no, e);
      }
    }
  }

  lemma TakenIntroduced(es: seq<Event>, b: Lazy, side: Side, bound: Bound, qty: int)
    requires Introduced(es, Entries(b.book))
    ensures Introduced(es, Entries(HeapSwept(b, Opposite(side), HeapTake(b.book, side, bound, qty)).book))
  {
    hide HeapTake, OneShrunk, Entries, PlacedBy;
    var rest := TakenEntries(b, side, bound, qty);
    var h := HeapTake(b.book, side, bound, qty);
    forall o | o in rest
      ensures PlacedBy(es, o.ts.no, o)
    {
      assert o in Entries(b.book);
    }
    IntroducedShrunk(es, rest, Entries(HeapSwept(b, Opposite(side), h).book));
  }

  lemma ZeroedIntroduced(es: seq<Event>, b: Book, ts: Stamp)
    requires Introduced(es, Entries(b))
    ensures Introduced(es, Entries(Book(Zeroed(b.bids, ts), Zeroed(b.asks, ts))))
  {
    var c := Book(Zeroed(b.bids, ts), Zeroed(b.asks, ts));
    forall o | o in Entries(c)
      ensures PlacedBy(es, o.ts.no, o)
    {
      var e := ZeroedSource(b, ts, o);
    }
  }

  lemma StepIntroduced(es: seq<Event>, b: Lazy)
    requires es != [] && Introduced(Front(es), Entries(b.book))
    ensures Introduced(es, Entries(HeapStep(b, Last(es).req, Now(es)).lazy.book))
  {
    hide HeapTake, HeapPush, Introduced, Entries, Zeroed;
    IntroducedLater(es, Entries(b.book));
    match Last(es).req
    case Limit(id, side, price, qty) =>
      TakenIntroduced(es, b, side, AtLimit(price), qty);
      var h := HeapTake(b.book, side, AtLimit(price), qty);
      var c := HeapSwept(b, Opposite(side), h);
      var o := Order(id, price, h.fill.left, Now(es));
      RestedEntries(c, side, o);
      IntroducedJoined(es, Entries(c.book), o);
    case Market(id, side, qty) =>
      TakenIntroduced(es, b, side, AtMarket, qty);
    case Cancel(id) =>
      if id in b.index {
        ZeroedIntroduced(es, b.book, b.index[id]);
      }
  }

  lemma IntroducedJoined(es: seq<Event>, m: multiset<Order>, o: Order)
    requires Introduced(es, m) && PlacedBy(es, o.ts.no, o)
    ensures Introduced(es, m + multiset{o})
  {
  }

  lemma {:induction false} AlwaysIntroduced(es: seq<Event>)
    ensures Introduced(es, Entries(HeapState(es).book))
  {
    hide HeapStep, Introduced, Entries;
    if es == [] {
      EmptyIntroduced();
    } else {
      AlwaysIntroduced(Front(es));
      StepIntroduced(es, HeapState(Front(es)));
    }
  }

  lemma EmptyIntroduced()
    ensures Introduced([], Entries(EmptyBook))
  {
  }

  /** With fresh ids two entries of one id are one entry. */
  lemma NothingShared(es: seq<Event>, m: multiset<Order>, popped: seq<Order>, rest: multiset<Order>,
                      after: multiset<Order>)
    requires FreshIds(es) && Introduced(es, m) && Tagged(m)
    requires m == multiset(popped) + rest && OneShrunk(rest, after)
    ensures !SharesId(popped, after)
  {
    hide OneShrunk;
    forall o | o in after && o.qty > 0
      ensures !HasId(popped, o.id)
    {
      ShrunkLive(rest, after, o);
      var e :| e in rest && e.qty > 0 && e.id == o.id && e.ts == o.ts;
      forall i | 0 <= i < |popped|
        ensures popped[i].id != e.id
      {
        var p := popped[i];
        assert p in multiset(popped) && p in m && e in m;
        assert m[e] == multiset(popped)[e] + rest[e];
        assert p != e && p.ts != e.ts;
        assert PlacedBy(es, p.ts.no, p) && PlacedBy(es, e.ts.no, e);
      }
    }
  }

  lemma FreshRest(es: seq<Event>, m: multiset<Order>)
    requires es != [] && FreshIds(es) && Introduced(Front(es), m) && Last(es).req.Limit?
    ensures forall o :: o in m ==> o.id != Last(es).req.id
  {
    forall o | o in m
      ensures o.id != Last(es).req.id
    {
      assert PlacedBy(Front(es), o.ts.no, o);
      assert es[o.ts.no].req.id != es[|es| - 1].req.id;
    }
  }

  lemma FreshTake(es: seq<Event>, b: Lazy, side: Side, bound: Bound, qty: int)
    requires FreshIds(es) && Introduced(es, Entries(b.book)) && Tagged(Entries(b.book))
    ensures var h := HeapTake(b.book, side, bound, qty);
            !SharesId(h.popped, Entries(HeapSwept(b, Opposite(side), h).book))
  {
    hide HeapTake, OneShrunk, Entries, Tagged, Introduced;
    var rest := TakenEntries(b, side, bound, qty);
    var h := HeapTake(b.book, side, bound, qty);
    NothingShared(es, Entries(b.book), h.popped, rest, Entries(HeapSwept(b, Opposite(side), h).book));
  }

  lemma {:induction false} FreshIdsAreSafe(es: seq<Event>)
    requires FreshIds(es)
    ensures AlwaysSafe(es)
  {
    hide HeapStep, HeapTake, Tagged, StampedUpTo, Introduced, Entries, SharesId;
    if es != [] {
      var b, past := HeapState(Front(es)), Front(es);
      FreshIdsAreSafe(past);
      AlwaysTagged(past);
      AlwaysIntroduced(past);
      match Last(es).req
      case Limit(id, side, price, qty) =>
        FreshTake(past, b, side, AtLimit(price), qty);
        TakenIntroduced(past, b, side, AtLimit(price), qty);
        FreshRest(es, Entries(HeapSwept(b, Opposite(side), HeapTake(b.book, side, AtLimit(price), qty)).book));
      case Market(id, side, qty) =>
        FreshTake(past, b, side, AtMarket, qty);
      case Cancel(_) =>
    }
  }

  /** Over any history with fresh ids, whatever the clock, the dictionary holds exactly the live
      entries of the heaps, throughout. */
  lemma DictionaryAlwaysExact(es: seq<Event>)
    requires FreshIds(es)
    ensures AlwaysExact(es)
  {
    FreshIdsAreSafe(es);
    DictionaryExactIff(es);
  }
}
