/** In what order a heap gives up its entries, and when that depends on more than the entries. */
module PopOrder {
  import opened PriceTimeBook
  import opened TimedQueue
  import opened BookHeap

  function Unrolled(resting: Side, h: seq<Order>): (r: seq<Order>)
    ensures |r| == |h| && multiset(r) == multiset(h)
    decreases |h|
  {
    if h == [] then []
    else
      var rest := Unrolled(resting, HeapPop(resting, h));
      assert multiset([h[0]] + rest) == multiset(rest) + multiset{h[0]};
      [h[0]] + rest
  }

  predicate SameKey(a: Order, b: Order) {
    a.price == b.price && a.ts.time == b.ts.time
  }

  predicate KeysDistinct(h: seq<Order>) {
    forall i, j :: 0 <= i < j < |h| ==> !SameKey(h[i], h[j])
  }

  // ---------- Distinct keys settle the order ----------

  lemma SameRoot(resting: Side, h: seq<Order>, g: seq<Order>)
    requires IsHeap(resting, h) && IsHeap(resting, g) && multiset(h) == multiset(g) && KeysDistinct(h) && h != []
    ensures g != [] && g[0] == h[0]
  {
    assert h[0] in multiset(g);
    var i :| 0 <= i < |g| && g[i] == h[0];
    RootIsLeast(resting, g, i);
    assert g[0] in multiset(h);
    var j :| 0 <= j < |h| && h[j] == g[0];
    RootIsLeast(resting, h, j);
  }

  lemma TailMultiset(h: seq<Order>)
    requires h != []
    ensures multiset(h[1..]) == multiset(h) - multiset{h[0]}
  {
    assert h == [h[0]] + h[1..];
  }

  lemma PoppedDistinct(resting: Side, h: seq<Order>)
    requires KeysDistinct(h) && h != []
    ensures KeysDistinct(HeapPop(resting, h))
  {
    hide HeapPop;
    var r := HeapPop(resting, h);
    TailMultiset(h);
    assert multiset(r) == multiset(h) - multiset{h[0]};
    DistinctPermuted(h[1..], r);
  }

  lemma DistinctPermuted(s: seq<Order>, t: seq<Order>)
    requires KeysDistinct(s) && multiset(s) == multiset(t)
    ensures KeysDistinct(t)
  {
    forall i, j | 0 <= i < j < |t|
      ensures !SameKey(t[i], t[j])
    {
      assert t[i] in multiset(s) && t[j] in multiset(s);
      var k :| 0 <= k < |s| && s[k] == t[i];
      var l :| 0 <= l < |s| && s[l] == t[j];
      if k == l {
        OnceEach(s, k);
        TwiceIn(t, i, j);
      }
    }
  }

  lemma OnceEach(s: seq<Order>, k: nat)
    requires KeysDistinct(s) && k < |s|
    ensures multiset(s)[s[k]] == 1
  {
    assert s == s[..k] + [s[k]] + s[k + 1..];
    assert s[k] !in s[..k] && s[k] !in s[k + 1..];
    assert multiset(s[..k])[s[k]] == 0 && multiset(s[k + 1..])[s[k]] == 0;
  }

  lemma TwiceIn(t: seq<Order>, i: nat, j: nat)
    requires i < j < |t| && t[i] == t[j]
    ensures multiset(t)[t[i]] >= 2
  {
    assert t == t[..i] + [t[i]] + t[i + 1..j] + [t[j]] + t[j + 1..];
  }

  lemma {:induction false} DistinctKeysSettle(resting: Side, h: seq<Order>, g: seq<Order>)
    requires IsHeap(resting, h) && IsHeap(resting, g) && multiset(h) == multiset(g) && KeysDistinct(h)
    ensures Unrolled(resting, g) == Unrolled(resting, h)
    decreases |h|
  {
    hide HeapPop;
    assert |multiset(h)| == |h| && |multiset(g)| == |g|;
    if h != [] {
      SameRoot(resting, h, g);
      assert multiset(HeapPop(resting, h)) == multiset(h) - multiset{h[0]};
      assert multiset(HeapPop(resting, g)) == multiset(g) - multiset{g[0]};
      PopKeepsHeap(resting, h);
      PopKeepsHeap(resting, g);
      PoppedDistinct(resting, h);
      DistinctKeysSettle(resting, HeapPop(resting, h), HeapPop(resting, g));
    }
  }

  // ---------- Tied entries trade places ----------

  /** f leaves keys alone. */
  ghost predicate KeepsKeys(f: Order -> Order) {
    forall o :: SameKey(f(o), o)
  }

  function Mapped(f: Order -> Order, h: seq<Order>): (r: seq<Order>)
    ensures |r| == |h| && forall i :: 0 <= i < |h| ==> r[i] == f(h[i])
  {
    seq(|h|, i requires 0 <= i < |h| => f(h[i]))
  }

  lemma SwapMapped(f: Order -> Order, h: seq<Order>, i: nat, j: nat)
    requires i < |h| && j < |h|
    ensures Swap(Mapped(f, h), i, j) == Mapped(f, Swap(h, i, j))
  {
  }

  lemma {:induction false} BubbleUpMapped(resting: Side, f: Order -> Order, h: seq<Order>, pos: nat)
    requires KeepsKeys(f) && pos < |h|
    ensures BubbleUp(resting, Mapped(f, h), pos) == Mapped(f, BubbleUp(resting, h, pos))
    decreases pos
  {
    assert SameKey(f(h[pos]), h[pos]);
    if pos > 0 {
      var p := Parent(pos);
      assert SameKey(f(h[p]), h[p]);
      if Before(resting, h[pos], h[p]) {
        SwapMapped(f, h, pos, p);
        BubbleUpMapped(resting, f, Swap(h, pos, p), p);
      }
    }
  }

  lemma SmallerChildMapped(resting: Side, f: Order -> Order, h: seq<Order>, pos: nat)
    requires KeepsKeys(f) && 2 * pos + 1 < |h|
    ensures SmallerChild(resting, Mapped(f, h), pos) == SmallerChild(resting, h, pos)
  {
    var left := 2 * pos + 1;
    assert SameKey(f(h[left]), h[left]);
    if left + 1 < |h| {
      assert SameKey(f(h[left + 1]), h[left + 1]);
    }
  }

  lemma {:induction false} SinkMapped(resting: Side, f: Order -> Order, h: seq<Order>, pos: nat)
    requires KeepsKeys(f) && pos < |h|
    ensures var s := SinkToLeaf(resting, h, pos); SinkToLeaf(resting, Mapped(f, h), pos) == Sunk(Mapped(f, s.h), s.pos)
    decreases |h| - pos
  {
    if 2 * pos + 1 < |h| {
      var c := SmallerChild(resting, h, pos);
      SmallerChildMapped(resting, f, h, pos);
      SwapMapped(f, h, pos, c);
      SinkMapped(resting, f, Swap(h, pos, c), c);
    }
  }

  lemma PopMapped(resting: Side, f: Order -> Order, h: seq<Order>)
    requires KeepsKeys(f) && h != []
    ensures HeapPop(resting, Mapped(f, h)) == Mapped(f, HeapPop(resting, h))
  {
    if |h| > 1 {
      RefillMapped(resting, f, h);
    }
  }

  lemma RefillMapped(resting: Side, f: Order -> Order, h: seq<Order>)
    requires KeepsKeys(f) && |h| > 1
    ensures HeapPop(resting, Mapped(f, h)) == Mapped(f, HeapPop(resting, h))
  {
    hide HeapPop, SinkToLeaf, BubbleUp, KeepsKeys;
    var last := |h| - 1;
    var g := [h[last]] + h[1..last];
    var m := Mapped(f, h);
    assert [m[last]] + m[1..last] == Mapped(f, g);
    PopIs(resting, h);
    PopIs(resting, m);
    SinkMapped(resting, f, g, 0);
    var s := SinkToLeaf(resting, g, 0);
    BubbleUpMapped(resting, f, s.h, s.pos);
  }

  lemma ConsMapped(f: Order -> Order, o: Order, s: seq<Order>)
    ensures [f(o)] + Mapped(f, s) == Mapped(f, [o] + s)
  {
  }

  lemma {:induction false} UnrolledMapped(resting: Side, f: Order -> Order, h: seq<Order>)
    requires KeepsKeys(f)
    ensures Unrolled(resting, Mapped(f, h)) == Mapped(f, Unrolled(resting, h))
    decreases |h|
  {
    hide HeapPop;
    if h != [] {
      var rest := HeapPop(resting, h);
      PopMapped(resting, f, h);
      UnrolledMapped(resting, f, rest);
      ConsMapped(f, h[0], Unrolled(resting, rest));
    }
  }

  function Exchange(a: Order, b: Order): Order -> Order {
    o => if o == a then b else if o == b then a else o
  }

  lemma TiesUnsettle(resting: Side, h: seq<Order>, i: nat, j: nat)
    requires IsHeap(resting, h) && NoRepeats(h) && i < j < |h| && SameKey(h[i], h[j])
    ensures var g := Swap(h, i, j);
            IsHeap(resting, g) && multiset(g) == multiset(h) && Unrolled(resting, g) != Unrolled(resting, h)
  {
    hide Unrolled;
    var f := Exchange(h[i], h[j]);
    var g := Swap(h, i, j);
    assert h[i] != h[j];
    assert g == Mapped(f, h);
    forall k | 0 < k < |g|
      ensures InOrder(resting, g, k)
    {
      assert InOrder(resting, h, k);
    }
    UnrolledMapped(resting, f, h);
    assert h[i] in multiset(Unrolled(resting, h));
    var k :| 0 <= k < |h| && Unrolled(resting, h)[k] == h[i];
    assert Unrolled(resting, g)[k] == h[j];
  }

  predicate NoRepeats(h: seq<Order>) {
    forall i, j :: 0 <= i < j < |h| ==> h[i] != h[j]
  }

  ghost predicate Determined(resting: Side, h: seq<Order>) {
    forall g :: IsHeap(resting, g) && multiset(g) == multiset(h) ==> Unrolled(resting, g) == Unrolled(resting, h)
  }

  /** The entries of a heap settle the order in which they are popped exactly when no two of
      them share price and time. */
  lemma PopOrderDeterminedIff(resting: Side, h: seq<Order>)
    requires IsHeap(resting, h) && NoRepeats(h)
    ensures Determined(resting, h) <==> KeysDistinct(h)
  {
    if KeysDistinct(h) {
      forall g | IsHeap(resting, g) && multiset(g) == multiset(h)
        ensures Unrolled(resting, g) == Unrolled(resting, h)
      {
        DistinctKeysSettle(resting, h, g);
      }
    } else {
      var i, j :| 0 <= i < j < |h| && SameKey(h[i], h[j]);
      TiesUnsettle(resting, h, i, j);
    }
  }

  // ---------- A heap of ties ----------

  predicate AllTied(resting: Side, xs: seq<Order>) {
    forall i, j :: 0 <= i < |xs| && 0 <= j < |xs| ==> !Before(resting, xs[i], xs[j])
  }

  lemma TiedPush(resting: Side, h: seq<Order>, o: Order)
    requires AllTied(resting, h + [o])
    ensures HeapPush(resting, h, o) == h + [o]
  {
  }

  lemma FourthPops(resting: Side, h: seq<Order>)
    requires |h| == 4 && AllTied(resting, h)
    ensures HeapPop(resting, h) == [h[2], h[1], h[3]]
  {
    var g := [h[3]] + h[1..3];
    var sunk := Swap(g, 0, 2);
    assert sunk == [h[2], h[1], h[3]];
    assert SinkToLeaf(resting, sunk, 2) == Sunk(sunk, 2);
    assert SmallerChild(resting, g, 0) == 2;
    assert SinkToLeaf(resting, g, 0) == Sunk(sunk, 2);
  }
}
