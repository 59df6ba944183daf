/** One bot's order and one run's telemetry: the fleet's counters and its bounded sample
    channel, and the ingester's window and total counters. */
module Telemetry {
  import opened PriceTimeBook
  import opened Histories

  /** One round trip; trackable tells whether the histogram's range takes its latency. */
  datatype Sample = Sample(success: bool, trackable: bool)

  // ---------- The sending side ----------

  /** Counters of the fleet, what went into the channel, how much was dropped at its door,
      and what the channel holds. */
  datatype Traffic = Traffic(sent: int, acked: int, fillErr: int, prioErr: int,
                             accepted: seq<Sample>, dropped: nat, chan: seq<Sample>)

  const NewTraffic := Traffic(0, 0, 0, 0, [], 0, [])

  function Begun(t: Traffic): Traffic {
    t.(sent := t.sent + 1)
  }

  function Replied(t: Traffic, x: Sample, misprice: bool): Traffic {
    if x.success then t.(acked := t.acked + 1, prioErr := t.prioErr + if misprice then 1 else 0)
    else t.(fillErr := t.fillErr + 1)
  }

  /** The non-blocking send: a full channel drops the sample. */
  function Offered(t: Traffic, x: Sample, capacity: nat): Traffic {
    if |t.chan| < capacity then t.(accepted := t.accepted + [x], chan := t.chan + [x])
    else t.(dropped := t.dropped + 1)
  }

  // ---------- The receiving side ----------

  datatype Quantiles = Quantiles(p50Ns: nat, p90Ns: nat, p99Ns: nat)

  /** A reported window. Its throughput is Tps of it. */
  datatype Snapshot = Snapshot(p50Ms: real, p90Ms: real, p99Ms: real,
                               sent: int, acked: int, fillErrors: int, priorityErrors: int)

  /** The counters since the last flush and since the start, the number of latencies in the
      histogram, and every snapshot reported so far. */
  datatype Meter = Meter(windowSent: int, windowAcked: int, windowFillErr: int, windowPrioErr: int,
                         totalSent: int, totalAcked: int, totalFillErr: int, totalPrioErr: int,
                         recorded: nat, flushed: seq<Snapshot>)

  /** Nothing has come in. */
  predicate Unused(m: Meter) {
    && m.windowSent == m.windowAcked == m.windowFillErr == m.windowPrioErr == 0
    && m.totalSent == m.totalAcked == m.totalFillErr == m.totalPrioErr == m.recorded == 0 && m.flushed == []
  }

  function Ingested(m: Meter, x: Sample): Meter {
    var counted := m.(totalSent := m.totalSent + 1, windowSent := m.windowSent + 1);
    if x.success then
      counted.(totalAcked := m.totalAcked + 1, windowAcked := m.windowAcked + 1,
               recorded := m.recorded + if x.trackable then 1 else 0)
    else
      counted.(totalFillErr := m.totalFillErr + 1, windowFillErr := m.windowFillErr + 1)
  }

  function Millis(ns: nat): real {
    ns as real / 1000000.0
  }

  /** Acknowledgements per second. */
  function Tps(s: Snapshot, interval: real): real
    requires interval > 0.0
  {
    s.acked as real / interval
  }

  function SnapshotOf(m: Meter, q: Quantiles): Snapshot {
    var shown := if m.recorded > 0 then q else Quantiles(0, 0, 0);
    Snapshot(Millis(shown.p50Ns), Millis(shown.p90Ns), Millis(shown.p99Ns),
             m.windowSent, m.windowAcked, m.windowFillErr, m.windowPrioErr)
  }

  /** A flush resets the window and the histogram; an empty window is not reported. */
  function Flushed(m: Meter, q: Quantiles): Meter {
    m.(windowSent := 0, windowAcked := 0, windowFillErr := 0, windowPrioErr := 0, recorded := 0,
       flushed := if m.windowSent == 0 && m.windowAcked == 0 then m.flushed else m.flushed + [SnapshotOf(m, q)])
  }

  function IngestedAll(m: Meter, xs: seq<Sample>): Meter
    decreases |xs|
  {
    if xs == [] then m else IngestedAll(Ingested(m, xs[0]), xs[1..])
  }

  // ---------- What ingesting and flushing keep ----------

  datatype Field = Sent | Acked | FillErrors

  function SumOf(snaps: seq<Snapshot>, k: Field): int {
    if snaps == [] then 0
    else
      var s := snaps[|snaps| - 1];
      SumOf(snaps[..|snaps| - 1], k) + match k case Sent => s.sent case Acked => s.acked case FillErrors => s.fillErrors
  }

  predicate Tallied(sent: int, acked: int, fillErr: int) {
    sent == acked + fillErr && acked >= 0 && fillErr >= 0
  }

  /** A snapshot as the ingester produces it. */
  predicate Genuine(s: Snapshot) {
    Tallied(s.sent, s.acked, s.fillErrors) && s.sent > 0 && s.priorityErrors == 0 && s.p99Ms >= 0.0
    && (s.acked == 0 ==> s.p50Ms == s.p90Ms == s.p99Ms == 0.0)
  }

  /** The latencies the histogram takes: of successful samples within its range. */
  function Trackables(xs: seq<Sample>): nat {
    if xs == [] then 0
    else Trackables(xs[..|xs| - 1]) + if xs[|xs| - 1].success && xs[|xs| - 1].trackable then 1 else 0
  }

  function Successes(xs: seq<Sample>): nat {
    if xs == [] then 0 else Successes(xs[..|xs| - 1]) + if xs[|xs| - 1].success then 1 else 0
  }

  /** The open window is made of these samples, and the histogram of their latencies. */
  predicate Holds(m: Meter, window: seq<Sample>) {
    && m.windowSent == |window| && m.windowAcked == Successes(window)
    && m.windowFillErr == |window| - Successes(window) && m.recorded == Trackables(window)
  }

  /** What a window's snapshot is to show, in milliseconds: its counts, and the quantiles q if
      any latency came in, nothing otherwise. */
  predicate Reports(s: Snapshot, window: seq<Sample>, q: Quantiles) {
    var some := Trackables(window) > 0;
    && s.sent == |window| && s.acked == Successes(window) && s.fillErrors == |window| - Successes(window)
    && s.priorityErrors == 0
    && s.p50Ms * 1000000.0 == (if some then q.p50Ns else 0) as real
    && s.p90Ms * 1000000.0 == (if some then q.p90Ns else 0) as real
    && s.p99Ms * 1000000.0 == (if some then q.p99Ns else 0) as real
  }

  lemma IngestHolds(m: Meter, window: seq<Sample>, x: Sample)
    requires Holds(m, window)
    ensures Holds(Ingested(m, x), window + [x])
  {
    assert (window + [x])[..|window|] == window;
  }

  /** A flush reports the window, unless it is empty, and opens a new one. */
  lemma FlushReports(m: Meter, window: seq<Sample>, q: Quantiles)
    requires Sound(m) && Holds(m, window)
    ensures var n := Flushed(m, q);
            && Holds(n, []) && |n.flushed| == |m.flushed| + (if window == [] then 0 else 1)
            && m.flushed <= n.flushed
            && (window != [] ==> Reports(n.flushed[|m.flushed|], window, q))
  {
  }

  predicate AllGenuine(snaps: seq<Snapshot>) {
    forall i :: 0 <= i < |snaps| ==> Genuine(snaps[i])
  }

  /** Totals are flushed windows plus the current one; every snapshot is genuine; the
      histogram never holds more latencies than the window has acknowledgements. */
  predicate Sound(m: Meter) {
    && m.totalSent == SumOf(m.flushed, Sent) + m.windowSent
    && m.totalAcked == SumOf(m.flushed, Acked) + m.windowAcked
    && m.totalFillErr == SumOf(m.flushed, FillErrors) + m.windowFillErr
    && m.totalPrioErr == m.windowPrioErr == 0
    && Tallied(m.windowSent, m.windowAcked, m.windowFillErr)
    && Tallied(m.totalSent, m.totalAcked, m.totalFillErr)
    && AllGenuine(m.flushed)
    && m.recorded <= m.windowAcked
  }

  lemma IngestKeepsSound(m: Meter, x: Sample)
    requires Sound(m)
    ensures Sound(Ingested(m, x))
  {
  }

  lemma SumOfExtended(snaps: seq<Snapshot>, s: Snapshot)
    ensures SumOf(snaps + [s], Sent) == SumOf(snaps, Sent) + s.sent
    ensures SumOf(snaps + [s], Acked) == SumOf(snaps, Acked) + s.acked
    ensures SumOf(snaps + [s], FillErrors) == SumOf(snaps, FillErrors) + s.fillErrors
  {
    assert (snaps + [s])[..|snaps|] == snaps;
  }

  /** The reported windows make up the totals. */
  predicate AddUp(snaps: seq<Snapshot>, m: Meter) {
    && SumOf(snaps, Sent) == m.totalSent
    && SumOf(snaps, Acked) == m.totalAcked
    && SumOf(snaps, FillErrors) == m.totalFillErr
  }

  /** A flush loses nothing, the silent one of an empty window included. */
  lemma FlushKeepsSound(m: Meter, q: Quantiles)
    requires Sound(m)
    ensures var n := Flushed(m, q); Sound(n) && AddUp(n.flushed, m) && AddUp(n.flushed, n)
  {
    hide SumOf;
    if m.windowSent != 0 || m.windowAcked != 0 {
      SumOfExtended(m.flushed, SnapshotOf(m, q));
    }
  }

  lemma UnusedSound(m: Meter)
    requires Unused(m)
    ensures Sound(m)
  {
  }

  lemma UnusedHolds(m: Meter)
    requires Unused(m)
    ensures Holds(m, [])
  {
  }

  // ---------- The objects ----------

  class Channel {
    const capacity: nat
    var buffer: seq<Sample>
    var closed: bool

    constructor (capacity: nat)
      ensures this.capacity == capacity && buffer == [] && !closed
    {
      this.capacity := capacity;
      buffer, closed := [], false;
    }

    /** select with a default branch. */
    method TrySend(x: Sample) returns (sent: bool)
      requires !closed
      modifies this`buffer
      ensures sent == (|old(buffer)| < capacity)
      ensures buffer == if sent then old(buffer) + [x] else old(buffer)
    {
      sent := |buffer| < capacity;
      if sent {
        buffer := buffer + [x];
      }
    }
  }

  datatype Reply = Failed | Answer(ack: Ack)

  class Fleet {
    const samples: Channel
    var ordersSent: int
    var ordersAcked: int
    var fillErrors: int
    var priorityErr: int
    ghost var accepted: seq<Sample>
    ghost var dropped: nat

    constructor ()
      ensures fresh(samples) && samples.capacity == 100000 && !samples.closed
      ensures View() == NewTraffic
    {
      samples := new Channel(100000);
      ordersSent, ordersAcked, fillErrors, priorityErr := 0, 0, 0, 0;
      accepted, dropped := [], 0;
    }

    ghost function View(): Traffic
      reads this, samples
    {
      Traffic(ordersSent, ordersAcked, fillErrors, priorityErr, accepted, dropped, samples.buffer)
    }

    /** A worker's order from start to finish, with the reply the adapter brings back. */
    method SendOrder(order: Request, reply: Reply, trackable: bool)
      requires !samples.closed
      modifies this, samples`buffer
      ensures var x := Sample(reply.Answer?, trackable);
              var misprice := reply.Answer? && PriorityError(order, reply.ack);
              View() == Offered(Replied(Begun(old(View())), x, misprice), x, samples.capacity)
      ensures ordersSent == old(ordersSent) + 1
      ensures ordersAcked == old(ordersAcked) + if reply.Answer? then 1 else 0
      ensures fillErrors == old(fillErrors) + if reply.Failed? then 1 else 0
      ensures priorityErr == old(priorityErr)
              + if reply.Answer? && order.Limit? && reply.ack.fillPrice > 0
                   && !Crosses(Opposite(order.side), AtLimit(order.price), reply.ack.fillPrice) then 1 else 0
    {
      ordersSent := ordersSent + 1;
      match reply {
        case Failed =>
          fillErrors := fillErrors + 1;
        case Answer(ack) =>
          ordersAcked := ordersAcked + 1;
          if ack.fillPrice > 0 && order.Limit? {
            if order.side == Buy && ack.fillPrice > order.price {
              priorityErr := priorityErr + 1;
            } else if order.side == Sell && ack.fillPrice < order.price {
              priorityErr := priorityErr + 1;
            }
          }
      }
      var x := Sample(reply.Answer?, trackable);
      var sent := samples.TrySend(x);
      if sent {
        accepted := accepted + [x];
      } else {
        dropped := dropped + 1;
      }
    }
  }

  class TelemetryIngester {
    const samples: Channel
    var windowSent: int
    var windowAcked: int
    var windowFillErr: int
    var windowPrioErr: int
    var totalSent: int
    var totalAcked: int
    var totalFillErr: int
    var totalPrioErr: int
    var histCount: nat
    var reported: seq<Snapshot>
    ghost var window: seq<Sample>  // what came in since the last flush

    constructor (samples: Channel)
      ensures this.samples == samples && Unused(View()) && window == [] && Valid()
    {
      hide Sound, Holds;
      this.samples := samples;
      windowSent, windowAcked, windowFillErr, windowPrioErr := 0, 0, 0, 0;
      totalSent, totalAcked, totalFillErr, totalPrioErr := 0, 0, 0, 0;
      histCount, reported, window := 0, [], [];
      new;
      UnusedSound(View());
      UnusedHolds(View());
    }

    function View(): Meter
      reads this
    {
      Meter(windowSent, windowAcked, windowFillErr, windowPrioErr,
            totalSent, totalAcked, totalFillErr, totalPrioErr, histCount, reported)
    }

    ghost predicate Valid()
      reads this
    {
      Sound(View()) && Holds(View(), window)
    }

    method Ingest(x: Sample)
      requires Valid()
      modifies this
      ensures Valid() && window == old(window) + [x] && reported == old(reported)
      ensures View() == Ingested(old(View()), x)
    {
      IngestKeepsSound(View(), x);
      IngestHolds(View(), window, x);
      window := window + [x];
      totalSent := totalSent + 1;
      windowSent := windowSent + 1;
      if x.success {
        totalAcked := totalAcked + 1;
        windowAcked := windowAcked + 1;
        if x.trackable {
          histCount := histCount + 1;
        }
      } else {
        totalFillErr := totalFillErr + 1;
        windowFillErr := windowFillErr + 1;
      }
    }

    /** The quantiles are the histogram's, should it hold anything. */
    method Flush(q: Quantiles)
      requires Valid()
      modifies this
      ensures Valid() && window == [] && View() == Flushed(old(View()), q)
      ensures AddUp(reported, View()) && old(reported) <= reported
      ensures |reported| == |old(reported)| + if old(window) == [] then 0 else 1
      ensures old(window) != [] ==> Reports(reported[|old(reported)|], old(window), q)
    {
      FlushKeepsSound(View(), q);
      FlushReports(View(), window, q);
      hide Sound, Holds, Reports, Flushed;
      TakeWindow(q);
    }

    /** The counters are swapped out, the histogram is read and reset, and what they held is
        reported. */
    method TakeWindow(q: Quantiles)
      modifies this
      ensures window == [] && View() == Flushed(old(View()), q)
    {
      window := [];
      var sent, acked, fillErr, prioErr := windowSent, windowAcked, windowFillErr, windowPrioErr;
      windowSent, windowAcked, windowFillErr, windowPrioErr := 0, 0, 0, 0;
      var p50, p90, p99 := 0, 0, 0;
      if histCount > 0 {
        p50, p90, p99 := q.p50Ns, q.p90Ns, q.p99Ns;
      }
      histCount := 0;
      if sent == 0 && acked == 0 {
        return;
      }
      reported := reported + [Snapshot(Millis(p50), Millis(p90), Millis(p99), sent, acked, fillErr, prioErr)];
    }

    /** Takes in whatever the channel still holds. */
    method DrainRemaining()
      requires Valid()
      modifies this, samples`buffer
      ensures Valid() && samples.buffer == [] && window == old(window) + old(samples.buffer)
      ensures View() == IngestedAll(old(View()), old(samples.buffer))
    {
      hide Sound, Holds, Ingested;
      while samples.buffer != []
        invariant Valid()
        invariant window + samples.buffer == old(window) + old(samples.buffer)
        invariant IngestedAll(View(), samples.buffer) == IngestedAll(old(View()), old(samples.buffer))
        decreases |samples.buffer|
      {
        var x := samples.buffer[0];
        samples.buffer := samples.buffer[1..];
        Ingest(x);
      }
    }
  }
}
