/** What a sweep of a heap achieves, in whatever order ties are served. */
module HeapSweeps {
  import opened PriceTimeBook
  import opened TimedQueue
  import opened BookHeap
  import opened HeapBook

  // ---------- Quantities do not depend on the layout ----------

  lemma {:induction false} DepthConcat(side: Side, bound: Bound, a: seq<Order>, b: seq<Order>)
    ensures Depth(side, bound, a + b) == Depth(side, bound, a) + Depth(side, bound, b)
  {
    if a == [] {
      assert a + b == b;
    } else {
      DepthConcat(side, bound, a[1..], b);
      assert (a + b)[1..] == a[1..] + b;
    }
  }

  lemma DepthWithout(side: Side, bound: Bound, s: seq<Order>, k: nat)
    requires k < |s|
    ensures Depth(side, bound, s) == Depth(side, bound, s[..k] + s[k + 1..]) + Depth(side, bound, [s[k]])
  {
    assert s == s[..k] + ([s[k]] + s[k + 1..]);
    DepthConcat(side, bound, s[..k], [s[k]] + s[k + 1..]);
    DepthConcat(side, bound, [s[k]], s[k + 1..]);
    DepthConcat(side, bound, s[..k], s[k + 1..]);
  }

  lemma WithoutMultiset(s: seq<Order>, k: nat)
    requires k < |s|
    ensures multiset(s[..k] + s[k + 1..]) == multiset(s) - multiset{s[k]}
  {
    assert s == s[..k] + [s[k]] + s[k + 1..];
  }

  lemma PermutedTail(a: seq<Order>, b: seq<Order>) returns (k: nat)
    requires multiset(a) == multiset(b) && a != []
    ensures k < |b| && b[k] == a[0] && multiset(a[1..]) == multiset(b[..k] + b[k + 1..])
  {
    assert a[0] in multiset(b);
    k :| 0 <= k < |b| && b[k] == a[0];
    WithoutMultiset(b, k);
    assert a == [a[0]] + a[1..];
    assert multiset(a[1..]) == multiset(a) - multiset{a[0]};
  }

  lemma {:induction false} DepthPermuted(side: Side, bound: Bound, a: seq<Order>, b: seq<Order>)
    requires multiset(a) == multiset(b)
    ensures Depth(side, bound, a) == Depth(side, bound, b)
  {
    if a == [] {
      assert |multiset(a)| == 0 && |multiset(b)| == |b|;
    } else {
      var k := PermutedTail(a, b);
      DepthWithout(side, bound, b, k);
      DepthPermuted(side, bound, a[1..], b[..k] + b[k + 1..]);
    }
  }

  lemma {:induction false} TotalIsDepth(side: Side, s: seq<Order>)
    ensures Total(s) == Depth(side, AtMarket, s)
  {
    if s != [] {
      TotalIsDepth(side, s[1..]);
    }
  }

  /** A heap with and without its root, or with an entry more. */
  lemma DepthJoined(side: Side, bound: Bound, h: seq<Order>, r: seq<Order>, o: Order)
    requires multiset(r) == multiset(h) + multiset{o}
    ensures Depth(side, bound, r) == Depth(side, bound, h) + Depth(side, bound, [o])
  {
    assert multiset(h + [o]) == multiset(r);
    DepthPermuted(side, bound, r, h + [o]);
    DepthConcat(side, bound, h, [o]);
  }

  lemma DepthAtRoot(side: Side, bound: Bound, h: seq<Order>, x: Order)
    requires h != []
    ensures Depth(side, bound, h[0 := x])
            == Depth(side, bound, h) - Depth(side, bound, [h[0]]) + Depth(side, bound, [x])
  {
    assert h[0 := x] == [x] + h[1..] && h == [h[0]] + h[1..];
    DepthConcat(side, bound, [x], h[1..]);
    DepthConcat(side, bound, [h[0]], h[1..]);
  }

  // ---------- One turn ----------

  lemma RootChanged(side: Side, h: seq<Order>, q: int)
    requires h != [] && IsHeap(side, h)
    ensures IsHeap(side, h[0 := h[0].(qty := q)])
  {
    var g := h[0 := h[0].(qty := q)];
    forall i | 0 < i < |g|
      ensures InOrder(side, g, i)
    {
      assert InOrder(side, h, i);
    }
  }

  lemma MembersPopped(side: Side, h: seq<Order>)
    requires h != [] && NonNegative(h)
    ensures NonNegative(HeapPop(side, h))
  {
    hide HeapPop;
    var r := HeapPop(side, h);
    forall i | 0 <= i < |r|
      ensures r[i].qty >= 0
    {
      assert r[i] in multiset(r);
      assert r[i] in multiset(h);
    }
  }

  lemma TurnKeeps(resting: Side, h: HeapFill)
    requires IsHeap(resting, h.fill.book) && h.fill.book != []
    ensures var t := HeapTurn(resting, h).fill.book;
            IsHeap(resting, t) && (NonNegative(h.fill.book) ==> NonNegative(t))
  {
    hide HeapPop;
    if Spent(h.fill) {
      PopKeepsHeap(resting, h.fill.book);
      if NonNegative(h.fill.book) {
        MembersPopped(resting, h.fill.book);
      }
    } else {
      RootChanged(resting, h.fill.book, h.fill.book[0].qty - h.fill.left);
    }
  }

  /** A turn takes from the depth, at any bound the root meets, what the taker gets. */
  lemma TurnTakes(resting: Side, wide: Bound, h: HeapFill)
    requires h.fill.book != [] && Crosses(resting, wide, h.fill.book[0].price)
    ensures var t := HeapTurn(resting, h);
            Depth(resting, wide, t.fill.book) + t.fill.filled == Depth(resting, wide, h.fill.book) + h.fill.filled
  {
    hide HeapPop;
    var f, best := h.fill, h.fill.book[0];
    if Spent(f) {
      DepthJoined(resting, wide, HeapPop(resting, f.book), f.book, best);
    } else {
      DepthAtRoot(resting, wide, f.book, best.(qty := best.qty - f.left));
    }
  }

  // ---------- The whole sweep ----------

  lemma NoneCross(resting: Side, bound: Bound, h: seq<Order>)
    requires IsHeap(resting, h) && (h != [] ==> !Crosses(resting, bound, h[0].price))
    ensures forall i :: 0 <= i < |h| ==> !Crosses(resting, bound, h[i].price)
  {
    forall i | 0 <= i < |h|
      ensures !Crosses(resting, bound, h[i].price)
    {
      RootIsLeast(resting, h, i);
    }
  }

  lemma {:induction false} DepthOfNone(resting: Side, bound: Bound, s: seq<Order>)
    requires forall i :: 0 <= i < |s| ==> !Crosses(resting, bound, s[i].price)
    ensures Depth(resting, bound, s) == 0
  {
    if s != [] {
      DepthOfNone(resting, bound, s[1..]);
    }
  }

  lemma {:induction false} HeapSweepKeeps(resting: Side, bound: Bound, h: HeapFill)
    requires IsHeap(resting, h.fill.book)
    ensures var r := HeapSweep(resting, bound, h).fill.book;
            IsHeap(resting, r) && (NonNegative(h.fill.book) ==> NonNegative(r))
    decreases |h.fill.book|
  {
    hide HeapTurn, IsHeap;
    if Goes(resting, bound, h.fill) {
      TurnKeeps(resting, h);
      if Spent(h.fill) {
        HeapSweepKeeps(resting, bound, HeapTurn(resting, h));
      }
    }
  }

  /** A taker left wanting has cleared everything at acceptable prices, ghosts included. */
  lemma {:induction false} HeapSweepClears(resting: Side, bound: Bound, h: HeapFill)
    requires IsHeap(resting, h.fill.book) && NonNegative(h.fill.book)
    ensures var r := HeapSweep(resting, bound, h).fill;
            r.left > 0 ==> forall i :: 0 <= i < |r.book| ==> !Crosses(resting, bound, r.book[i].price)
    decreases |h.fill.book|
  {
    hide HeapPop, IsHeap;
    if !Goes(resting, bound, h.fill) {
      if h.fill.left > 0 {
        NoneCross(resting, bound, h.fill.book);
      }
    } else if Spent(h.fill) {
      TurnKeeps(resting, h);
      HeapSweepClears(resting, bound, HeapTurn(resting, h));
    }
  }

  /** Nothing appears or vanishes in a sweep: what leaves the heap, or the part of it within a
      bound no narrower than the taker's, is what the taker receives. */
  lemma {:induction false} HeapSweepBalances(resting: Side, bound: Bound, wide: Bound, h: HeapFill)
    requires wide == bound || wide == AtMarket
    ensures var r := HeapSweep(resting, bound, h).fill;
            && Depth(resting, wide, r.book) + r.filled == Depth(resting, wide, h.fill.book) + h.fill.filled
            && r.filled + r.left == h.fill.filled + h.fill.left
    decreases |h.fill.book|
  {
    hide HeapPop, Depth;
    if Goes(resting, bound, h.fill) {
      TurnTakes(resting, wide, h);
      if Spent(h.fill) {
        HeapSweepBalances(resting, bound, wide, HeapTurn(resting, h));
      }
    }
  }

  lemma {:induction false} HeapSweepGives(resting: Side, bound: Bound, h: HeapFill)
    requires NonNegative(h.fill.book)
    ensures var r := HeapSweep(resting, bound, h).fill;
            r.filled >= h.fill.filled && (h.fill.left >= 0 ==> r.left >= 0) && (h.fill.left <= 0 ==> r == h.fill)
    decreases |h.fill.book|
  {
    hide HeapPop;
    if Goes(resting, bound, h.fill) && Spent(h.fill) {
      MembersPopped(resting, h.fill.book);
      HeapSweepGives(resting, bound, HeapTurn(resting, h));
    }
  }

  /** A taker receives exactly the smaller of what it asked for and what rests at acceptable
      prices. */
  lemma HeapSweepFills(resting: Side, bound: Bound, h: HeapFill)
    requires IsHeap(resting, h.fill.book) && NonNegative(h.fill.book)
    ensures var r := HeapSweep(resting, bound, h).fill;
            var traded := Min(Max(h.fill.left, 0), Depth(resting, bound, h.fill.book));
            r.filled == h.fill.filled + traded && r.left == h.fill.left - traded
  {
    hide HeapSweep, IsHeap;
    var r := HeapSweep(resting, bound, h).fill;
    HeapSweepGives(resting, bound, h);
    HeapSweepBalances(resting, bound, bound, h);
    HeapSweepKeeps(resting, bound, h);
    DepthNonNegative(resting, bound, h.fill.book);
    DepthNonNegative(resting, bound, r.book);
    if r.left > 0 {
      HeapSweepClears(resting, bound, h);
      DepthOfNone(resting, bound, r.book);
    }
  }

  /** The price a sweep reports is its starting price or an acceptable one. */
  lemma {:induction false} HeapSweepPrice(resting: Side, bound: Bound, h: HeapFill)
    ensures var p := HeapSweep(resting, bound, h).fill.price; p == h.fill.price || Crosses(resting, bound, p)
    decreases |h.fill.book|
  {
    hide HeapPop;
    if Goes(resting, bound, h.fill) && Spent(h.fill) {
      HeapSweepPrice(resting, bound, HeapTurn(resting, h));
    }
  }

  // ---------- What becomes of the entries ----------

  /** r is s, but that its first order may have shrunk, to something. */
  ghost predicate HeadShrunk(s: seq<Order>, r: seq<Order>) {
    && |s| == |r|
    && (forall i :: 0 < i < |s| ==> r[i] == s[i])
    && (s != [] ==> r[0] == s[0] || (0 < r[0].qty < s[0].qty && r[0] == s[0].(qty := r[0].qty)))
  }

  /** None of these entries precedes one of those. */
  predicate NoneBefore(resting: Side, s: seq<Order>, t: seq<Order>) {
    forall i, j :: 0 <= i < |s| && 0 <= j < |t| ==> !Before(resting, s[i], t[j])
  }

  /** A sweep splits the entries into those popped and those that stay, one of them perhaps
      traded in part; and no entry of a heap that stays precedes one that is popped. */
  lemma {:induction false} SweepSplits(resting: Side, bound: Bound, h: HeapFill) returns (rest: seq<Order>)
    ensures var r := HeapSweep(resting, bound, h);
            && h.popped <= r.popped
            && multiset(h.fill.book) == multiset(r.popped[|h.popped|..]) + multiset(rest)
            && HeadShrunk(rest, r.fill.book)
            && (IsHeap(resting, h.fill.book) ==> NoneBefore(resting, rest, r.popped[|h.popped|..]))
    decreases |h.fill.book|
  {
    hide HeapTurn, HeapPop, IsHeap, NoneBefore, HeadShrunk, Crosses;
    rest := h.fill.book;
    if Goes(resting, bound, h.fill) && Spent(h.fill) {
      SpentPops(resting, h);
      rest := SweepSplits(resting, bound, HeapTurn(resting, h));
      if IsHeap(resting, h.fill.book) {
        TurnKeeps(resting, h);
      }
      SplitsOnward(resting, h.fill.book, h.popped, HeapSweep(resting, bound, h).popped, rest);
    } else {
      StopSplits(resting, bound, h);
      NoneBeforeNothing(resting, rest);
    }
  }

  lemma NoneBeforeNothing(resting: Side, s: seq<Order>)
    ensures NoneBefore(resting, s, [])
  {
  }

  lemma RootPrecedes(resting: Side, h: seq<Order>, rest: seq<Order>, popped: seq<Order>)
    requires IsHeap(resting, h) && h != [] && multiset(h) == multiset(popped) + multiset(rest)
    ensures NoneBefore(resting, rest, [h[0]])
  {
    forall i | 0 <= i < |rest|
      ensures !Before(resting, rest[i], h[0])
    {
      assert rest[i] in multiset(rest);
      assert rest[i] in multiset(h);
      var j :| 0 <= j < |h| && h[j] == rest[i];
      RootIsLeast(resting, h, j);
    }
  }

  lemma NoneBeforeOnward(resting: Side, s: seq<Order>, t: seq<Order>)
    requires t != [] && NoneBefore(resting, s, [t[0]]) && NoneBefore(resting, s, t[1..])
    ensures NoneBefore(resting, s, t)
  {
    forall i, j | 0 <= i < |s| && 0 <= j < |t|
      ensures !Before(resting, s[i], t[j])
    {
      assert if j == 0 then t[j] == [t[0]][0] else t[j] == t[1..][j - 1];
    }
  }

  lemma StopSplits(resting: Side, bound: Bound, h: HeapFill)
    requires !(Goes(resting, bound, h.fill) && Spent(h.fill))
    ensures var r := HeapSweep(resting, bound, h); r.popped == h.popped && HeadShrunk(h.fill.book, r.fill.book)
  {
  }

  lemma SpentPops(resting: Side, h: HeapFill)
    requires h.fill.book != [] && Spent(h.fill)
    ensures HeapTurn(resting, h).fill.book == HeapPop(resting, h.fill.book)
    ensures HeapTurn(resting, h).popped == h.popped + [h.fill.book[0]]
  {
    hide HeapPop, Min;
  }

  /** From the split of what is left once the root is popped to that of the whole heap. */
  lemma SplitsOnward(resting: Side, h: seq<Order>, before: seq<Order>, popped: seq<Order>, rest: seq<Order>)
    requires h != [] && before + [h[0]] <= popped
    requires multiset(h) == multiset(popped[|before| + 1..]) + multiset(rest) + multiset{h[0]}
    requires IsHeap(resting, h) ==> NoneBefore(resting, rest, popped[|before| + 1..])
    ensures before <= popped && multiset(h) == multiset(popped[|before|..]) + multiset(rest)
    ensures IsHeap(resting, h) ==> NoneBefore(resting, rest, popped[|before|..])
  {
    hide IsHeap, NoneBefore;
    PoppedFirst(before, h[0], popped);
    if IsHeap(resting, h) {
      RootPrecedes(resting, h, rest, popped[|before|..]);
      NoneBeforeOnward(resting, rest, popped[|before|..]);
    }
  }

  lemma PoppedFirst(popped: seq<Order>, best: Order, all: seq<Order>)
    requires popped + [best] <= all
    ensures popped <= all
    ensures all[|popped|] == best && all[|popped|..][1..] == all[|popped| + 1..]
    ensures multiset(all[|popped|..]) == multiset{best} + multiset(all[|popped| + 1..])
  {
    assert all[|popped|] == (popped + [best])[|popped|];
    assert all[|popped|..] == [best] + all[|popped| + 1..];
    assert forall i :: 0 <= i < |popped| ==> all[i] == (popped + [best])[i];
  }
}
