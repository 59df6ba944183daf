/** A history of requests fed to both engine classes. */
module EngineReplay {
  import opened PriceTimeBook
  import opened HeapBook
  import opened LazyCancellation
  import opened Histories
  import opened HeapHistories
  import opened DictionaryExact
  import opened DictionaryHistories
  import opened EngineAgreement
  import Python = LazyHeapBook
  import Cpp = SortedVectorBook

  lemma OneMore(es: seq<Event>, k: nat)
    requires k < |es|
    ensures Front(es[..k + 1]) == es[..k] && Last(es[..k + 1]) == es[k] && Now(es[..k + 1]) == Stamp(es[k].now, k)
  {
  }

  lemma OneStep(es: seq<Event>, k: nat)
    requires k < |es|
    ensures var past, next, now := es[..k], es[..k + 1], Stamp(es[k].now, k);
            && LazyOutcome(HeapState(next), HeapAck(next)) == HeapStep(HeapState(past), es[k].req, now)
            && Outcome(VectorBook(next), VectorAck(next)) == Cpp.EngineStep(VectorBook(past), es[k].req, now)
  {
    hide HeapStep, Cpp.EngineStep;
    OneMore(es, k);
  }

  lemma PrefixFresh(es: seq<Event>, k: nat)
    requires k <= |es|
    ensures FreshIds(es) ==> FreshIds(es[..k])
    ensures FreshKeys(es) ==> FreshKeys(es[..k])
  {
  }

  lemma NoneYet()
    ensures HeapState([]) == Lazy(EmptyBook, map[]) && VectorBook([]) == EmptyBook
  {
  }

  /** Both engines, new, given the same requests: they reach the states, and give the answers,
      of the histories. */
  method Replay(es: seq<Event>)
    returns (heaps: Python.OrderBook, vectors: Cpp.OrderBook, heapAcks: seq<Ack>, vectorAcks: seq<Ack>)
    ensures heaps.Valid() && heaps.View() == HeapState(es)
    ensures vectors.Valid() && vectors.View() == VectorBook(es)
    ensures |heapAcks| == |vectorAcks| == |es|
    ensures forall k :: 0 <= k < |es| ==> heapAcks[k] == HeapAck(es[..k + 1]) && vectorAcks[k] == VectorAck(es[..k + 1])
    ensures HeapsSound(heaps.View().book) && Uncrossed(heaps.View().book)
    ensures FreshIds(es) ==> DictExact(heaps.View())
    ensures FreshIds(es) && FreshKeys(es) ==> LiveOrders(heaps.View().book) == vectors.View()
    ensures FreshIds(es) && FreshKeys(es) ==> forall k :: 0 <= k < |es| ==> SameFill(heapAcks[k], vectorAcks[k])
  {
    hide HeapStep, Cpp.EngineStep, HeapsSound, DictExact, LiveOrders;
    heaps, vectors, heapAcks, vectorAcks := Fed(es);
    HeapsNeverCross(es);
    if FreshIds(es) {
      DictionaryAlwaysExact(es);
      if FreshKeys(es) {
        EnginesAgree(es);
        forall k | 0 <= k < |es|
          ensures SameFill(heapAcks[k], vectorAcks[k])
        {
          PrefixFresh(es, k + 1);
          EnginesAgree(es[..k + 1]);
        }
      }
    }
  }

  method Fed(es: seq<Event>)
    returns (heaps: Python.OrderBook, vectors: Cpp.OrderBook, heapAcks: seq<Ack>, vectorAcks: seq<Ack>)
    ensures heaps.Valid() && heaps.View() == HeapState(es)
    ensures vectors.Valid() && vectors.View() == VectorBook(es)
    ensures |heapAcks| == |vectorAcks| == |es|
    ensures forall k :: 0 <= k < |es| ==> heapAcks[k] == HeapAck(es[..k + 1]) && vectorAcks[k] == VectorAck(es[..k + 1])
  {
    hide HeapStep, Cpp.EngineStep, Python.Fits, Python.Vals, Cpp.ValidVectors;
    hide HeapAck, VectorAck, HeapState, VectorBook;
    NoneYet();
    heaps := new Python.OrderBook();
    vectors := new Cpp.OrderBook();
    heapAcks, vectorAcks := [], [];
    assert es[..0] == [];
    for n := 0 to |es|
      invariant fresh(heaps) && fresh(vectors) && heaps.Valid() && vectors.Valid() && heaps.handled == n
      invariant forall i :: 0 <= i < |heaps.bids| ==> fresh(heaps.bids[i])
      invariant forall i :: 0 <= i < |heaps.asks| ==> fresh(heaps.asks[i])
      invariant heaps.View() == HeapState(es[..n]) && vectors.View() == VectorBook(es[..n])
      invariant |heapAcks| == |vectorAcks| == n
      invariant forall k :: 0 <= k < n ==>
                  heapAcks[k] == HeapAck(es[..k + 1]) && vectorAcks[k] == VectorAck(es[..k + 1])
    {
      OneStep(es, n);
      var e := es[n];
      var p := heaps.ProcessOrder(e.req, e.now);
      var c := vectors.Process(e.req, Stamp(e.now, n));
      heapAcks, vectorAcks := heapAcks + [p], vectorAcks + [c];
    }
    assert es[..|es|] == es;
  }
}
