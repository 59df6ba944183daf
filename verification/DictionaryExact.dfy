/** When the Python engine's dictionary holds exactly the live orders: for each kind of request
    the exact condition, which fresh ids meet and a reused id may not. */
module DictionaryExact {
  import opened PriceTimeBook
  import opened HeapBook

  /** The entries of both heaps, ghosts included, in no order. */
  ghost function Entries(b: Book): multiset<Order> {
    multiset(b.bids) + multiset(b.asks)
  }

  ghost predicate Covered(index: map<string, Stamp>, m: multiset<Order>) {
    forall o :: o in m && o.qty > 0 ==> o.id in index && index[o.id] == o.ts
  }

  ghost predicate LiveAs(m: multiset<Order>, id: string, ts: Stamp) {
    exists o :: o in m && o.qty > 0 && o.id == id && o.ts == ts
  }

  ghost predicate Backed(index: map<string, Stamp>, m: multiset<Order>) {
    forall id :: id in index ==> LiveAs(m, id, index[id])
  }

  /** Every live entry is found under its id, and nothing else is found. */
  ghost predicate ExactFor(index: map<string, Stamp>, m: multiset<Order>) {
    Covered(index, m) && Backed(index, m)
  }

  ghost predicate DictExact(b: Lazy) {
    ExactFor(b.index, Entries(b.book))
  }

  ghost predicate LiveIn(m: multiset<Order>, id: string) {
    exists o :: o in m && o.qty > 0 && o.id == id
  }

  /** One of the popped entries shares its id with a live entry that stays. */
  ghost predicate SharesId(popped: seq<Order>, m: multiset<Order>) {
    exists o :: o in m && o.qty > 0 && HasId(popped, o.id)
  }

  /** Each entry occurs once, and stamps tell them apart. */
  ghost predicate Tagged(m: multiset<Order>) {
    && (forall o :: o in m ==> m[o] == 1)
    && (forall o, p :: o in m && p in m && o.ts == p.ts ==> o == p)
  }

  ghost predicate StampedUpTo(m: multiset<Order>, n: nat) {
    forall o :: o in m ==> o.ts.no < n
  }

  // ---------- Placement ----------

  /** Placing an order keeps the dictionary exact if and only if no live entry carries its id. */
  lemma PlacementExactIff(index: map<string, Stamp>, m: multiset<Order>, o: Order)
    requires ExactFor(index, m) && o.qty > 0 && forall e :: e in m ==> e.ts != o.ts
    ensures ExactFor(index[o.id := o.ts], m + multiset{o}) <==> !LiveIn(m, o.id)
  {
    var grown, n := index[o.id := o.ts], m + multiset{o};
    if LiveIn(m, o.id) {
      var e :| e in m && e.qty > 0 && e.id == o.id;
      assert e in n && grown[e.id] != e.ts;
    } else {
      forall id | id in grown
        ensures LiveAs(n, id, grown[id])
      {
        if id == o.id {
          assert o in n;
        } else {
          assert LiveAs(m, id, index[id]);
          var e :| e in m && e.qty > 0 && e.id == id && e.ts == index[id];
          assert e in n;
        }
      }
    }
  }

  /** It cannot bring back an order the dictionary has lost. */
  lemma PlacementNoCure(index: map<string, Stamp>, m: multiset<Order>, o: Order, e: Order)
    requires e in m && e.qty > 0 && e.id !in index && e.ts != o.ts
    ensures !ExactFor(index[o.id := o.ts], m + multiset{o})
  {
    assert e in m + multiset{o};
  }

  // ---------- Sweep ----------

  /** m, but that one live entry may have shrunk, to something. */
  ghost predicate OneShrunk(m: multiset<Order>, n: multiset<Order>) {
    n == m || exists e, q :: ShrinksTo(m, e, q, n)
  }

  ghost predicate ShrinksTo(m: multiset<Order>, e: Order, q: int, n: multiset<Order>) {
    e in m && 0 < q < e.qty && n == m - multiset{e} + multiset{e.(qty := q)}
  }

  lemma ShrunkLive(m: multiset<Order>, n: multiset<Order>, o: Order)
    requires OneShrunk(m, n) && o.qty > 0
    ensures o in n ==> LiveAs(m, o.id, o.ts)
    ensures o in m ==> LiveAs(n, o.id, o.ts)
  {
    if n != m {
      var e, q :| ShrinksTo(m, e, q, n);
      var x := e.(qty := q);
      assert x in n && e in m;
      if o in n && o != x {
        assert o in m;
      }
      if o in m && o != e {
        assert o in n;
      }
    }
  }

  lemma Dropped(index: map<string, Stamp>, popped: seq<Order>)
    ensures forall id :: id in DropIds(index, popped) <==> id in index && !HasId(popped, id)
    ensures forall id :: id in DropIds(index, popped) ==> DropIds(index, popped)[id] == index[id]
  {
  }

  /** A sweep keeps the dictionary exact if and only if no entry it pops shares its id with a
      live entry that stays, on either side. */
  lemma SweepExactIff(index: map<string, Stamp>, m: multiset<Order>, popped: seq<Order>, rest: multiset<Order>,
                      after: multiset<Order>)
    requires ExactFor(index, m) && m == multiset(popped) + rest && OneShrunk(rest, after)
    ensures ExactFor(DropIds(index, popped), after) <==> !SharesId(popped, after)
  {
    hide DropIds, HasId, OneShrunk, LiveAs;
    Dropped(index, popped);
    if SharesId(popped, after) {
      var e :| e in after && e.qty > 0 && HasId(popped, e.id);
      assert !Covered(DropIds(index, popped), after);
    } else {
      SweepCovered(index, m, popped, rest, after);
      SweepBacked(index, m, popped, rest, after);
    }
  }

  lemma SweepCovered(index: map<string, Stamp>, m: multiset<Order>, popped: seq<Order>, rest: multiset<Order>,
                     after: multiset<Order>)
    requires Covered(index, m) && m == multiset(popped) + rest && OneShrunk(rest, after) && !SharesId(popped, after)
    ensures Covered(DropIds(index, popped), after)
  {
    hide DropIds, HasId, OneShrunk;
    Dropped(index, popped);
    forall o | o in after && o.qty > 0
      ensures o.id in DropIds(index, popped) && DropIds(index, popped)[o.id] == o.ts
    {
      ShrunkLive(rest, after, o);
      var e :| e in rest && e.qty > 0 && e.id == o.id && e.ts == o.ts;
      assert e in m;
      assert !HasId(popped, o.id);
    }
  }

  lemma SweepBacked(index: map<string, Stamp>, m: multiset<Order>, popped: seq<Order>, rest: multiset<Order>,
                    after: multiset<Order>)
    requires Backed(index, m) && m == multiset(popped) + rest && OneShrunk(rest, after)
    ensures Backed(DropIds(index, popped), after)
  {
    hide DropIds, HasId, OneShrunk;
    Dropped(index, popped);
    forall id | id in DropIds(index, popped)
      ensures LiveAs(after, id, index[id])
    {
      assert LiveAs(m, id, index[id]);
      var o :| o in m && o.qty > 0 && o.id == id && o.ts == index[id];
      NotPopped(popped, o);
      assert o in rest;
      ShrunkLive(rest, after, o);
    }
  }

  lemma NotPopped(popped: seq<Order>, o: Order)
    requires !HasId(popped, o.id)
    ensures o !in multiset(popped)
  {
  }

  // ---------- Cancellation ----------

  /** A cancellation always keeps the dictionary exact. */
  lemma CancelExact(index: map<string, Stamp>, b: Book, id: string)
    requires ExactFor(index, Entries(b)) && Tagged(Entries(b)) && id in index
    ensures ExactFor(index - {id}, Entries(Book(Zeroed(b.bids, index[id]), Zeroed(b.asks, index[id]))))
  {
    var ts := index[id];
    var m, n := Entries(b), Entries(Book(Zeroed(b.bids, ts), Zeroed(b.asks, ts)));
    ZeroedEntries(b, ts);
    forall o | o in n && o.qty > 0
      ensures o.id in index - {id} && index[o.id] == o.ts
    {
      assert o in m && o.ts != ts;
    }
    forall other | other in index - {id}
      ensures LiveAs(n, other, index[other])
    {
      assert LiveAs(m, other, index[other]) && LiveAs(m, id, ts);
      var o :| o in m && o.qty > 0 && o.id == other && o.ts == index[other];
      var c :| c in m && c.qty > 0 && c.id == id && c.ts == ts;
      assert o.ts != ts;
      assert o in n;
    }
  }

  lemma ZeroedEntries(b: Book, ts: Stamp)
    ensures var n := Entries(Book(Zeroed(b.bids, ts), Zeroed(b.asks, ts)));
            && (forall o :: o in n && o.qty > 0 ==> o in Entries(b) && o.ts != ts)
            && (forall o :: o in Entries(b) && o.ts != ts ==> o in n)
  {
    ZeroedMembers(b.bids, ts);
    ZeroedMembers(b.asks, ts);
  }

  lemma ZeroedMembers(s: seq<Order>, ts: Stamp)
    ensures forall o :: o in Zeroed(s, ts) && o.qty > 0 ==> o in s && o.ts != ts
    ensures forall o :: o in s && o.ts != ts ==> o in Zeroed(s, ts)
  {
    var z := Zeroed(s, ts);
    forall o | o in s && o.ts != ts
      ensures o in z
    {
      var i :| 0 <= i < |s| && s[i] == o;
      assert z[i] == o;
    }
  }
}
