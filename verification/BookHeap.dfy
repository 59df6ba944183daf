/** The binary heap under the Python engine: heapq's push and pop on a list of orders, compared
    by price and then time as the dataclass of its entries is. An order's quantity takes no part
    in comparisons, so changing it cannot disturb a heap. */
module BookHeap {
  import opened PriceTimeBook
  import opened TimedQueue

  function Parent(i: nat): nat
    requires i > 0
  {
    (i - 1) / 2
  }

  predicate InOrder(resting: Side, h: seq<Order>, i: nat)
    requires 0 < i < |h|
  {
    !Before(resting, h[i], h[Parent(i)])
  }

  predicate IsHeap(resting: Side, h: seq<Order>) {
    forall i :: 0 < i < |h| ==> InOrder(resting, h, i)
  }

  function Swap(h: seq<Order>, i: nat, j: nat): (r: seq<Order>)
    requires i < |h| && j < |h|
    ensures |r| == |h| && multiset(r) == multiset(h)
  {
    h[i := h[j]][j := h[i]]
  }

  /** heapq's `_siftdown`: carry the entry at pos towards the root. */
  function BubbleUp(resting: Side, h: seq<Order>, pos: nat): (r: seq<Order>)
    requires pos < |h|
    ensures |r| == |h| && multiset(r) == multiset(h)
    decreases pos
  {
    if pos == 0 || !Before(resting, h[pos], h[Parent(pos)]) then h
    else BubbleUp(resting, Swap(h, pos, Parent(pos)), Parent(pos))
  }

  /** The child `_siftup` pulls up: the right one unless the left one is strictly smaller. */
  function SmallerChild(resting: Side, h: seq<Order>, pos: nat): (c: nat)
    requires 2 * pos + 1 < |h|
    ensures pos < c < |h| && Parent(c) == pos
    ensures forall d :: 0 < d < |h| && Parent(d) == pos ==> !Before(resting, h[d], h[c])
  {
    var left := 2 * pos + 1;
    if left + 1 < |h| && !Before(resting, h[left], h[left + 1]) then left + 1 else left
  }

  datatype Sunk = Sunk(h: seq<Order>, pos: nat)

  /** The first half of heapq's `_siftup`: carry the entry at pos down to a leaf. */
  function SinkToLeaf(resting: Side, h: seq<Order>, pos: nat): (r: Sunk)
    requires pos < |h|
    ensures |r.h| == |h| && multiset(r.h) == multiset(h) && r.pos < |h| <= 2 * r.pos + 1
    decreases |h| - pos
  {
    if |h| <= 2 * pos + 1 then Sunk(h, pos)
    else
      var c := SmallerChild(resting, h, pos);
      SinkToLeaf(resting, Swap(h, pos, c), c)
  }

  function HeapPush(resting: Side, h: seq<Order>, x: Order): (r: seq<Order>)
    ensures multiset(r) == multiset(h) + multiset{x}
  {
    BubbleUp(resting, h + [x], |h|)
  }

  function HeapPop(resting: Side, h: seq<Order>): (r: seq<Order>)
    requires h != []
    ensures multiset(h) == multiset(r) + multiset{h[0]} && |r| == |h| - 1
  {
    var last := |h| - 1;
    if last == 0 then
      assert h == [h[0]];
      []
    else
      assert h == [h[0]] + h[1..last] + [h[last]];
      var s := SinkToLeaf(resting, [h[last]] + h[1..last], 0);
      BubbleUp(resting, s.h, s.pos)
  }

  lemma PopIs(resting: Side, h: seq<Order>)
    requires |h| > 1
    ensures var s := SinkToLeaf(resting, [h[|h| - 1]] + h[1..|h| - 1], 0);
            HeapPop(resting, h) == BubbleUp(resting, s.h, s.pos)
  {
  }

  // ---------- Push and pop keep the heap ordered ----------

  /** In heap order but for the entry at pos, around which children and grandparent agree. */
  predicate HeapExcept(resting: Side, h: seq<Order>, pos: nat) {
    && (forall i :: 0 < i < |h| && i != pos && Parent(i) != pos ==> InOrder(resting, h, i))
    && (forall c :: 0 < c < |h| && Parent(c) == pos && pos > 0 && pos < |h| ==> !Before(resting, h[c], h[Parent(pos)]))
  }

  /** The entry at pos may be too small for its parent, but fits above its children. */
  predicate HeapBelow(resting: Side, h: seq<Order>, pos: nat) {
    && HeapExcept(resting, h, pos)
    && (forall c :: 0 < c < |h| && Parent(c) == pos ==> InOrder(resting, h, c))
  }

  lemma {:induction false} BubbleUpRestores(resting: Side, h: seq<Order>, pos: nat)
    requires pos < |h| && HeapBelow(resting, h, pos)
    ensures IsHeap(resting, BubbleUp(resting, h, pos))
    decreases pos
  {
    if pos == 0 || !Before(resting, h[pos], h[Parent(pos)]) {
      forall i | 0 < i < |h|
        ensures InOrder(resting, h, i)
      {
        if i != pos && Parent(i) != pos {
        }
      }
    } else {
      var p := Parent(pos);
      var g := Swap(h, pos, p);
      forall i | 0 < i < |g| && i != p
        ensures InOrder(resting, g, i)
      {
        if i != pos && Parent(i) != pos {
          assert InOrder(resting, h, i);
        }
      }
      forall c | 0 < c < |g| && Parent(c) == p && p > 0
        ensures !Before(resting, g[c], g[Parent(p)])
      {
        assert InOrder(resting, h, p);
        if c != pos {
          assert InOrder(resting, h, c);
        }
      }
      BubbleUpRestores(resting, g, p);
    }
  }

  lemma {:induction false} SinkToLeafRestores(resting: Side, h: seq<Order>, pos: nat)
    requires pos < |h| && HeapExcept(resting, h, pos)
    ensures var s := SinkToLeaf(resting, h, pos); HeapBelow(resting, s.h, s.pos)
    decreases |h| - pos
  {
    if |h| <= 2 * pos + 1 {
    } else {
      var c := SmallerChild(resting, h, pos);
      var g := Swap(h, pos, c);
      forall i | 0 < i < |g| && i != c && Parent(i) != c
        ensures InOrder(resting, g, i)
      {
        if i != pos && Parent(i) != pos {
          assert InOrder(resting, h, i);
        }
      }
      forall d | 0 < d < |g| && Parent(d) == c
        ensures !Before(resting, g[d], g[Parent(c)])
      {
        assert InOrder(resting, h, d);
      }
      SinkToLeafRestores(resting, g, c);
    }
  }

  lemma PushKeepsHeap(resting: Side, h: seq<Order>, x: Order)
    requires IsHeap(resting, h)
    ensures IsHeap(resting, HeapPush(resting, h, x))
  {
    var g := h + [x];
    forall i | 0 < i < |g| && i != |h|
      ensures InOrder(resting, g, i)
    {
      assert InOrder(resting, h, i);
    }
    BubbleUpRestores(resting, g, |h|);
  }

  /** With its last entry put in place of the root, a heap is out of order at the root alone. */
  lemma RefilledAtRoot(resting: Side, h: seq<Order>)
    requires IsHeap(resting, h) && |h| > 1
    ensures HeapExcept(resting, [h[|h| - 1]] + h[1..|h| - 1], 0)
  {
    var g := [h[|h| - 1]] + h[1..|h| - 1];
    forall i | 0 < i < |g| && Parent(i) != 0
      ensures InOrder(resting, g, i)
    {
      assert InOrder(resting, h, i);
    }
  }

  lemma PopKeepsHeap(resting: Side, h: seq<Order>)
    requires IsHeap(resting, h) && h != []
    ensures IsHeap(resting, HeapPop(resting, h))
  {
    hide SinkToLeaf, BubbleUp, HeapExcept, HeapBelow;
    if |h| > 1 {
      var g := [h[|h| - 1]] + h[1..|h| - 1];
      RefilledAtRoot(resting, h);
      SinkToLeafRestores(resting, g, 0);
      var s := SinkToLeaf(resting, g, 0);
      BubbleUpRestores(resting, s.h, s.pos);
    }
  }

  /** Nothing in a heap precedes its root. */
  lemma {:induction false} RootIsLeast(resting: Side, h: seq<Order>, i: nat)
    requires IsHeap(resting, h) && i < |h|
    ensures !Before(resting, h[i], h[0])
  {
    if i > 0 {
      assert InOrder(resting, h, i);
      RootIsLeast(resting, h, Parent(i));
    }
  }
}
